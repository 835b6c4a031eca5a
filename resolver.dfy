/**
 * Product resolution of the backend: the DuckDuckGo topic mapper, the curated template
 * generator, the three-option fallback and the chain that tries them in this order.
 * The HTTP call to DuckDuckGo is left out: its `RelatedTopics` list is an input.
 */
module Resolver {
  import opened Wrappers
  import opened Text
  import opened PriceHints
  import opened Candidates

  // ---------------------------------------------------------------------------
  // DuckDuckGo instant answers
  // ---------------------------------------------------------------------------

  /** One entry of `RelatedTopics`: its `Text`, if present, and `Icon.URL` ("" when absent). */
  datatype Topic = Topic(text: Option<string>, iconUrl: string)

  const PlaceholderUrl := "https://via.placeholder.com/300x300/667eea/ffffff?text="
  const TopicSeparator := " - "

  /** The product name of a topic: the text before the first " - ", or the query when there is none. */
  function TopicName(query: string, text: string): (r: string)
    ensures Contains(text, TopicSeparator) ==>
      |r| <= |text| && r == text[..|r|] && OccursAt(text, TopicSeparator, |r|) && !Contains(r, TopicSeparator)
    ensures Contains(text, TopicSeparator) ==> FindFrom(text, TopicSeparator, 0) == Some(|r|)
    ensures !Contains(text, TopicSeparator) ==> r == query
  {
    if Contains(text, TopicSeparator) then SplitOn(text, TopicSeparator)[0] else query
  }

  function TopicProduct(query: string, text: string, iconUrl: string, quote: Encoder): (r: Product)
    ensures TopicShaped(r)
    ensures HasSearchLinks(r, quote(TopicName(query, text)))
  {
    var name := TopicName(query, text);
    Product(
      name := Some(Take(name, 100)),
      price := Some(CheckWebsite),
      description := Some(Take(text, 200)),
      image := Some(if iconUrl != "" then iconUrl else PlaceholderUrl + quote(Take(name, 20))),
      flipkartLink := Some(FlipkartSearchUrl + quote(name)),
      amazonLink := Some(AmazonSearchUrl + quote(name)),
      rating := Some("4.0+"),
      inStock := None)
  }

  /** The topics that carry a `Text`, in their original order. */
  function TextTopics(topics: seq<Topic>): (r: seq<Topic>)
    ensures |r| <= |topics|
    ensures forall k :: 0 <= k < |r| ==> r[k].text.Some?
    ensures forall t :: t in r <==> t in topics && t.text.Some?
  {
    if topics == [] then []
    else (if topics[0].text.Some? then [topics[0]] else []) + TextTopics(topics[1..])
  }

  /** The products of the topics that carry a `Text`, one per such topic, in order. */
  function TopicProducts(query: string, topics: seq<Topic>, quote: Encoder): (r: seq<Product>)
    ensures |r| == |TextTopics(topics)|
    ensures r == [] <==> forall k :: 0 <= k < |topics| ==> topics[k].text.None?
  {
    if topics == [] then []
    else
      var rest := TopicProducts(query, topics[1..], quote);
      assert forall k :: 1 <= k < |topics| ==> topics[k] == topics[1..][k - 1];
      match topics[0].text
      case None => rest
      case Some(t) => [TopicProduct(query, t, topics[0].iconUrl, quote)] + rest
  }

  /** The `k`-th product is the product of the `k`-th topic with a text. */
  lemma {:induction false} TopicProductsAt(query: string, topics: seq<Topic>, quote: Encoder, k: nat)
    requires k < |TopicProducts(query, topics, quote)|
    ensures var t := TextTopics(topics)[k];
      TopicProducts(query, topics, quote)[k] == TopicProduct(query, t.text.value, t.iconUrl, quote)
  {
    var r := TopicProducts(query, topics, quote);
    var rest := TopicProducts(query, topics[1..], quote);
    var ts := TextTopics(topics);
    var tail := TextTopics(topics[1..]);
    match topics[0].text
    case None =>
      assert ts == tail;
      TopicProductsAt(query, topics[1..], quote, k);
    case Some(t) =>
      assert ts == [topics[0]] + tail;
      if k > 0 {
        assert r[k] == rest[k - 1] && ts[k] == tail[k - 1];
        TopicProductsAt(query, topics[1..], quote, k - 1);
      }
  }

  /** Every DuckDuckGo product has the shape of a topic product. */
  lemma TopicProductsShaped(query: string, topics: seq<Topic>, quote: Encoder, k: nat)
    requires k < |TopicProducts(query, topics, quote)|
    ensures TopicShaped(TopicProducts(query, topics, quote)[k])
  {
    var t := TextTopics(topics)[k];
    TopicProductsAt(query, topics, quote, k);
    TopicProductShaped(query, t.text.value, t.iconUrl, quote);
  }

  /** `search_products_duckduckgo`: `None`, or the products of the first five topics. */
  function SearchDuckDuckGo(query: string, related: seq<Topic>, quote: Encoder): (r: Option<seq<Product>>)
    ensures r.Some? ==> 1 <= |r.value| <= 5
    ensures r.None? <==> TextTopics(Take(related, 5)) == []
  {
    var products := TopicProducts(query, Take(related, 5), quote);
    if products != [] then Some(products) else None
  }

  /** A DuckDuckGo result is absent exactly when none of the first five topics has a text. */
  lemma DuckDuckGoNoneIff(query: string, related: seq<Topic>, quote: Encoder)
    ensures SearchDuckDuckGo(query, related, quote).None? <==>
      forall k :: 0 <= k < |related| && k < 5 ==> related[k].text.None?
  {
    var first := Take(related, 5);
    assert forall k :: 0 <= k < |related| && k < 5 ==> related[k] == first[k];
  }

  /** A bounded name and description, the fixed price and rating, an image and both links. */
  predicate TopicShaped(p: Product) {
    p.name.Some? && |p.name.value| <= 100 && p.description.Some? && |p.description.value| <= 200 &&
    p.price == Some(CheckWebsite) && p.rating == Some("4.0+") && p.inStock == None &&
    p.image.Some? && p.image.value != "" &&
    p.flipkartLink.Some? && p.flipkartLink.value != "" && p.amazonLink.Some? && p.amazonLink.value != ""
  }

  /**
   * A topic product is named by the first 100 characters of its topic name, described by
   * the first 200 characters of the text, shows the icon or a placeholder labelled with the
   * first 20 characters of the name, and links both marketplace searches for the full name.
   */
  lemma TopicProductShaped(query: string, text: string, iconUrl: string, quote: Encoder)
    ensures var p := TopicProduct(query, text, iconUrl, quote);
      var name := TopicName(query, text);
      TopicShaped(p) &&
      p.name == Some(Take(name, 100)) && p.description == Some(Take(text, 200)) &&
      (iconUrl != "" ==> p.image == Some(iconUrl)) &&
      (iconUrl == "" ==> p.image == Some(PlaceholderUrl + quote(Take(name, 20)))) &&
      HasSearchLinks(p, quote(name))
  {
  }

  /**
   * A DuckDuckGo result holds one product per topic with a text among the first five,
   * in order, each of the topic shape.
   */
  lemma DuckDuckGoShape(query: string, related: seq<Topic>, quote: Encoder)
    ensures match SearchDuckDuckGo(query, related, quote)
      case None => TextTopics(Take(related, 5)) == []
      case Some(ps) =>
        var ts := TextTopics(Take(related, 5));
        1 <= |ps| <= 5 && |ps| == |ts| &&
        (forall k :: 0 <= k < |ps| ==> TopicShaped(ps[k])) &&
        (forall k :: 0 <= k < |ps| ==> ps[k] == TopicProduct(query, ts[k].text.value, ts[k].iconUrl, quote))
  {
    var first := Take(related, 5);
    var ps := TopicProducts(query, first, quote);
    forall k | 0 <= k < |ps|
      ensures TopicShaped(ps[k])
      ensures ps[k] == TopicProduct(query, TextTopics(first)[k].text.value, TextTopics(first)[k].iconUrl, quote)
    {
      TopicProductsShaped(query, first, quote, k);
      TopicProductsAt(query, first, quote, k);
    }
  }

  // ---------------------------------------------------------------------------
  // Curated templates
  // ---------------------------------------------------------------------------

  datatype Template = Template(name: string, price: string, rating: string, desc: string)

  /** The keys of the template dictionary, in the order it is scanned. */
  const Keywords: seq<string> := ["watch", "headphone", "laptop", "phone"]

  /** The templates stored under the `k`-th key. */
  function KeywordTemplates(k: nat): (r: seq<Template>)
    requires k < |Keywords|
    ensures 1 <= |r| <= 5
  {
    match k
    case 0 => // "watch"
      [
        Template("Seiko 5 Sports Automatic SRPD Series", "₹15,000 - ₹25,000", "4.5",
          "A " + "highly " + "regarded " + "automatic " + "watch " + "known " + "for " + "its " +
          "reliability " + "and " + "value. " + "It " + "features " + "a " + "robust " +
          "in-house " + "automatic " + "movement, " + "a " + "day-date " + "display, " + "and " +
          "a " + "see-through " + "case " + "back. " + "Its " + "versatile " + "design " + "makes " +
          "it " + "suitable " + "for " + "both " + "casual " + "and " + "semi-formal " + "occasions."),
        Template("Tissot PRX Quartz", "₹20,000 - ₹30,000", "4.6",
          "A " + "stunning " + "Swiss-made " + "watch " + "featuring " + "a " + "timeless " +
          "1970s " + "integrated " + "bracelet " + "design. " + "It " + "comes " + "with " + "a " +
          "high-quality " + "quartz " + "movement, " + "a " + "scratch-resistant " + "sapphire " +
          "crystal, " + "and " + "a " + "beautifully " + "finished " + "case " + "that " +
          "exudes " + "premium " + "quality."),
        Template("Fossil Gen 6 Smartwatch", "₹18,000 - ₹25,000", "4.4",
          "Feature-rich " + "smartwatch " + "with " + "fitness " + "tracking, " + "notifications, " +
          "and " + "Google " + "Wear " + "OS. " + "Perfect " + "for " + "active " + "lifestyles " +
          "and " + "tech " + "enthusiasts " + "who " + "want " + "style " + "and " + "functionality.")
      ]
    case 1 => // "headphone"
      [
        Template("Sony WH-1000XM4 Wireless Headphones", "₹25,000 - ₹30,000", "4.7",
          "Premium " + "noise-cancelling " + "headphones " + "with " + "exceptional " + "sound " +
          "quality. " + "Features " + "30-hour " + "battery " + "life " + "and " +
          "industry-leading " + "ANC " + "technology " + "for " + "immersive " + "listening " +
          "experience."),
        Template("Bose QuietComfort 45", "₹28,000 - ₹35,000", "4.6",
          "Comfortable " + "over-ear " + "headphones " + "with " + "excellent " + "noise " +
          "cancellation. " + "Known " + "for " + "superior " + "comfort " + "during " + "long " +
          "listening " + "sessions " + "and " + "crystal-clear " + "audio."),
        Template("JBL Tune 760NC", "₹5,000 - ₹8,000", "4.3",
          "Affordable " + "wireless " + "headphones " + "with " + "active " + "noise " +
          "cancellation. " + "Great " + "value " + "for " + "money " + "with " + "good " + "sound " +
          "quality " + "and " + "comfortable " + "fit.")
      ]
    case 2 => // "laptop"
      [
        Template("HP Pavilion 15", "₹45,000 - ₹60,000", "4.4",
          "Reliable " + "laptop " + "for " + "everyday " + "computing " + "tasks. " + "Features " +
          "modern " + "processors, " + "good " + "display, " + "and " + "solid " + "build " +
          "quality " + "perfect " + "for " + "students " + "and " + "professionals."),
        Template("Dell Inspiron 15", "₹50,000 - ₹65,000", "4.5",
          "Versatile " + "laptop " + "suitable " + "for " + "work " + "and " + "entertainment. " +
          "Known " + "for " + "durability " + "and " + "excellent " + "customer " + "support " +
          "with " + "good " + "performance.")
      ]
    case _ => // "phone"
      [
        Template("Samsung Galaxy S23", "₹60,000 - ₹80,000", "4.6",
          "Flagship " + "smartphone " + "with " + "excellent " + "camera " + "system " + "and " +
          "powerful " + "performance. " + "Premium " + "design " + "and " + "display " + "quality " +
          "with " + "long-lasting " + "battery."),
        Template("OnePlus 11", "₹50,000 - ₹65,000", "4.5",
          "High-performance " + "smartphone " + "with " + "fast " + "charging " + "and " +
          "smooth " + "user " + "experience. " + "Great " + "for " + "gaming " + "and " +
          "photography " + "enthusiasts.")
      ]
  }

  /** The first key, at or after `from`, that occurs in the lower-cased query. */
  function FirstKeyIndex(ql: string, keys: seq<string>, from: nat): (r: Option<nat>)
    decreases |keys| - from
    ensures r.Some? ==> from <= r.value < |keys| && Contains(ql, keys[r.value])
    ensures r.Some? ==> forall j :: from <= j < r.value ==> !Contains(ql, keys[j])
    ensures r.None? ==> forall j :: from <= j < |keys| ==> !Contains(ql, keys[j])
  {
    if from >= |keys| then None
    else if Contains(ql, keys[from]) then Some(from)
    else FirstKeyIndex(ql, keys, from + 1)
  }

  /** The rupee band "₹<lo>,000 - ₹<hi>,000". */
  function RupeeBand(lo: string, hi: string): string {
    "₹" + lo + ",000 - ₹" + hi + ",000"
  }

  /** `str(int(low) + 5)`: the upper end when the query names a single amount. */
  function FivePast(low: string): string
    requires AllDigits(low)
  {
    NatToString(DigitsValue(low) + 5)
  }

  /** The band of a match: its two groups, or the first and that plus five when the second is absent. */
  function MatchBand(m: Option<KMatch>): string
    requires m.Some? ==> WellFormed(m.value)
  {
    match m
    case None => ""
    case Some(g) => RupeeBand(g.low, if g.high.Some? then g.high.value else FivePast(g.low))
  }

  /** The "Nk" / "L-Hk" price phrase in rupees, or "" when the query carries none. */
  function PricePhrase(ql: string): (r: string)
    ensures r == "" <==> SearchK(ql, 0).None?
  {
    MatchBand(SearchK(ql, 0))
  }

  /** The two generic options for a query that no keyword matches. */
  function GenericTemplates(query: string, title: Encoder, phrase: string): (r: seq<Template>)
    ensures |r| == 2 && r[0].price == r[1].price
    ensures phrase != "" ==> r[0].price == phrase
    ensures phrase == "" ==> r[0].price == CheckWebsite
  {
    var price := if phrase != "" then phrase else CheckWebsite;
    [ Template(title(query) + " - Premium Option", price, "4.5",
        "High-quality " + query + " " + "option " + "with " + "excellent " + "features " + "and " +
        "customer " + "satisfaction. " + "Available " + "on " + "major " + "e-commerce " +
        "platforms " + "with " + "secure " + "payment " + "and " + "reliable " + "delivery."),
      Template(title(query) + " - Standard Option", price, "4.3",
        "Well-balanced " + query + " " + "option " + "offering " + "great " + "value. " +
        "Popular " + "choice " + "among " + "customers " + "with " + "positive " + "reviews " +
        "and " + "good " + "build " + "quality.") ]
  }

  /** A template with its marketplace links and an image named after the first word of its name. */
  function CuratedProduct(t: Template, query: string, quote: Encoder): (r: Product)
    ensures r.name == Some(t.name) && r.price == Some(t.price) && r.rating == Some(t.rating)
    ensures HasSearchLinks(r, quote(t.name)) && r.inStock == Some(true)
    ensures r.image.Some? && UnsplashUrl <= r.image.value
  {
    var words := Words(t.name);
    Product(
      name := Some(t.name),
      price := Some(t.price),
      description := Some(t.desc),
      image := Some(UnsplashUrl + quote(if words != [] then words[0] else query)),
      flipkartLink := Some(FlipkartSearchUrl + quote(t.name)),
      amazonLink := Some(AmazonSearchUrl + quote(t.name)),
      rating := Some(t.rating),
      inStock := Some(true))
  }

  function CuratedProducts(ts: seq<Template>, query: string, quote: Encoder): (r: seq<Product>)
    ensures |r| == |ts|
    ensures forall k :: 0 <= k < |ts| ==> r[k] == CuratedProduct(ts[k], query, quote)
  {
    seq(|ts|, k requires 0 <= k < |ts| => CuratedProduct(ts[k], query, quote))
  }

  /** The templates `search_products_web` formats for a query. */
  function ChosenTemplates(query: string, title: Encoder): (r: seq<Template>)
    ensures 1 <= |r| <= 5
    ensures FirstKeyIndex(Lower(query), Keywords, 0).Some? ==>
      r == KeywordTemplates(FirstKeyIndex(Lower(query), Keywords, 0).value)
  {
    var ql := Lower(query);
    var found := match FirstKeyIndex(ql, Keywords, 0)
      case Some(k) => KeywordTemplates(k)
      case None => [];
    if found != [] then found else GenericTemplates(query, title, PricePhrase(ql))
  }

  /** `search_products_web`. */
  function SearchProductsWeb(query: string, quote: Encoder, title: Encoder): (r: seq<Product>)
    ensures |r| <= 5
  {
    CuratedProducts(Take(ChosenTemplates(query, title), 5), query, quote)
  }

  /** What every curated template carries: a name, a price and a rating. */
  predicate Presentable(t: Template) {
    t.name != "" && t.price != "" && t.rating != ""
  }

  predicate PresentableRow(ts: seq<Template>) {
    1 <= |ts| <= 5 && forall j :: 0 <= j < |ts| ==> Presentable(ts[j])
  }

  lemma WatchRow(k: nat) requires k == 0 ensures PresentableRow(KeywordTemplates(k)) {
    var ts := KeywordTemplates(k);
    assert Presentable(ts[0]) && Presentable(ts[1]) && Presentable(ts[2]);
  }

  lemma HeadphoneRow(k: nat) requires k == 1 ensures PresentableRow(KeywordTemplates(k)) {
    var ts := KeywordTemplates(k);
    assert Presentable(ts[0]) && Presentable(ts[1]) && Presentable(ts[2]);
  }

  lemma LaptopRow(k: nat) requires k == 2 ensures PresentableRow(KeywordTemplates(k)) {
    var ts := KeywordTemplates(k);
    assert Presentable(ts[0]) && Presentable(ts[1]);
  }

  lemma PhoneRow(k: nat) requires k == 3 ensures PresentableRow(KeywordTemplates(k)) {
    var ts := KeywordTemplates(k);
    assert Presentable(ts[0]) && Presentable(ts[1]);
  }

  /** Every key of the dictionary holds one to five presentable templates. */
  lemma TablePresentable(k: nat)
    requires k < |Keywords|
    ensures PresentableRow(KeywordTemplates(k))
  {
    if k == 0 { WatchRow(k); }
    else if k == 1 { HeadphoneRow(k); }
    else if k == 2 { LaptopRow(k); }
    else { PhoneRow(k); }
  }

  lemma GenericPresentable(query: string, title: Encoder, phrase: string)
    ensures PresentableRow(GenericTemplates(query, title, phrase))
  {
    var ts := GenericTemplates(query, title, phrase);
    assert Presentable(ts[0]) && Presentable(ts[1]);
  }

  /** The key search stops at the first key the query contains. */
  lemma FirstKeyIs(ql: string, keys: seq<string>, k: nat)
    requires k < |keys| && Contains(ql, keys[k])
    requires forall j :: 0 <= j < k ==> !Contains(ql, keys[j])
    ensures FirstKeyIndex(ql, keys, 0) == Some(k)
  {
  }

  /** The key search finds nothing when the query contains no key. */
  lemma FirstKeyNone(ql: string, keys: seq<string>)
    requires forall j :: 0 <= j < |keys| ==> !Contains(ql, keys[j])
    ensures FirstKeyIndex(ql, keys, 0) == None
  {
  }

  /** The first key the lower-cased query contains selects its templates. */
  lemma ChosenByKey(query: string, title: Encoder, k: nat)
    requires k < |Keywords| && Contains(Lower(query), Keywords[k])
    requires forall j :: 0 <= j < k ==> !Contains(Lower(query), Keywords[j])
    ensures ChosenTemplates(query, title) == KeywordTemplates(k)
  {
    FirstKeyIs(Lower(query), Keywords, k);
    TablePresentable(k);
  }

  /** A query with no key gets the two generic templates. */
  lemma ChosenGeneric(query: string, title: Encoder)
    requires forall j :: 0 <= j < |Keywords| ==> !Contains(Lower(query), Keywords[j])
    ensures ChosenTemplates(query, title) == GenericTemplates(query, title, PricePhrase(Lower(query)))
  {
    FirstKeyNone(Lower(query), Keywords);
  }

  /** The chosen templates are never empty, and all are presentable. */
  lemma ChosenPresentable(query: string, title: Encoder)
    ensures PresentableRow(ChosenTemplates(query, title))
  {
    match FirstKeyIndex(Lower(query), Keywords, 0)
    case Some(k) =>
      ChosenByKey(query, title, k);
      TablePresentable(k);
    case None =>
      ChosenGeneric(query, title);
      GenericPresentable(query, title, PricePhrase(Lower(query)));
  }

  /** In stock, with name, price and rating present and both search links built from the quoted name. */
  predicate Curated(p: Product, quote: Encoder) {
    p.inStock == Some(true) && p.name.Some? && HasSearchLinks(p, quote(p.name.value)) &&
    p.price.Some? && p.price.value != "" && p.rating.Some? && p.rating.value != ""
  }

  /** Formatting one to five presentable templates gives as many curated products. */
  lemma CuratedShape(ts: seq<Template>, query: string, quote: Encoder)
    requires PresentableRow(ts)
    ensures var r := CuratedProducts(Take(ts, 5), query, quote);
      1 <= |r| <= 5 && forall k :: 0 <= k < |r| ==> Curated(r[k], quote)
  {
    assert Take(ts, 5) == ts;
    var r := CuratedProducts(ts, query, quote);
    forall k | 0 <= k < |r| ensures Curated(r[k], quote) {
      assert r[k] == CuratedProduct(ts[k], query, quote);
      assert Presentable(ts[k]);
    }
  }

  /** One to five products, all in stock, each with both search links built from its quoted name. */
  lemma WebShape(query: string, quote: Encoder, title: Encoder)
    ensures var r := SearchProductsWeb(query, quote, title);
      1 <= |r| <= 5 && forall k :: 0 <= k < |r| ==> Curated(r[k], quote)
  {
    ChosenPresentable(query, title);
    CuratedShape(ChosenTemplates(query, title), query, quote);
  }

  /** The name column of a product list. */
  function Names(ps: seq<Product>): seq<Option<string>> {
    seq(|ps|, k requires 0 <= k < |ps| => ps[k].name)
  }

  function TemplateNames(ts: seq<Template>): seq<Option<string>> {
    seq(|ts|, k requires 0 <= k < |ts| => Some(ts[k].name))
  }

  /** Up to five templates keep their names, in order, when formatted. */
  lemma CuratedNames(ts: seq<Template>, query: string, quote: Encoder)
    requires |ts| <= 5
    ensures Names(CuratedProducts(Take(ts, 5), query, quote)) == TemplateNames(ts)
  {
    assert Take(ts, 5) == ts;
  }

  /** The first keyword of the table, in its fixed order, that occurs in the lower-cased query wins. */
  lemma WebFirstKeyWins(query: string, quote: Encoder, title: Encoder, k: nat)
    requires k < |Keywords| && Contains(Lower(query), Keywords[k])
    requires forall j :: 0 <= j < k ==> !Contains(Lower(query), Keywords[j])
    ensures Names(SearchProductsWeb(query, quote, title)) == TemplateNames(KeywordTemplates(k))
  {
    ChosenByKey(query, title, k);
    TablePresentable(k);
    CuratedNames(KeywordTemplates(k), query, quote);
  }

  /** "headphone" contains "phone", yet a headphone query gets the headphone templates. */
  lemma HeadphoneBeatsPhone(query: string, quote: Encoder, title: Encoder)
    requires Contains(Lower(query), "headphone") && !Contains(Lower(query), "watch")
    ensures Names(SearchProductsWeb(query, quote, title)) ==
      [Some("Sony WH-1000XM4 Wireless Headphones"), Some("Bose QuietComfort 45"), Some("JBL Tune 760NC")]
  {
    WebFirstKeyWins(query, quote, title, 1);
    HeadphoneNames();
  }

  lemma HeadphoneNames()
    ensures TemplateNames(KeywordTemplates(1)) ==
      [Some("Sony WH-1000XM4 Wireless Headphones"), Some("Bose QuietComfort 45"), Some("JBL Tune 760NC")]
  {
    var ts := KeywordTemplates(1);
    var ns := TemplateNames(ts);
    assert |ns| == 3;
    assert ns[0] == Some(ts[0].name) && ns[1] == Some(ts[1].name) && ns[2] == Some(ts[2].name);
  }

  /** The generic options, formatted: Premium then Standard, both priced by the phrase or "Check website". */
  lemma GenericShape(query: string, title: Encoder, phrase: string, quote: Encoder)
    ensures var r := CuratedProducts(Take(GenericTemplates(query, title, phrase), 5), query, quote);
      |r| == 2 &&
      r[0].name == Some(title(query) + " - Premium Option") &&
      r[1].name == Some(title(query) + " - Standard Option") &&
      r[0].price == r[1].price == Some(if phrase != "" then phrase else CheckWebsite)
  {
    var ts := GenericTemplates(query, title, phrase);
    assert Take(ts, 5) == ts;
  }

  /** Without a keyword: exactly the Premium and Standard options, priced by the phrase or "Check website". */
  lemma WebGeneric(query: string, quote: Encoder, title: Encoder)
    requires forall j :: 0 <= j < |Keywords| ==> !Contains(Lower(query), Keywords[j])
    ensures var r := SearchProductsWeb(query, quote, title);
      var phrase := PricePhrase(Lower(query));
      |r| == 2 &&
      r[0].name == Some(title(query) + " - Premium Option") &&
      r[1].name == Some(title(query) + " - Standard Option") &&
      r[0].price == r[1].price == Some(if phrase != "" then phrase else CheckWebsite)
  {
    ChosenGeneric(query, title);
    GenericShape(query, title, PricePhrase(Lower(query)), quote);
  }

  /** A single "Nk" spans N to N + 5 thousand rupees. */
  lemma PhraseSingle(prefix: string, d: string, rest: string)
    requires NoDigits(prefix) && d != [] && AllDigits(d)
    ensures PricePhrase(prefix + d + "k" + rest) == RupeeBand(d, FivePast(d))
  {
    SearchSingleK(prefix, d, rest);
    SingleBand(d);
  }

  lemma SingleBand(d: string)
    requires d != [] && AllDigits(d)
    ensures MatchBand(Some(KMatch(d, None))) == RupeeBand(d, FivePast(d))
  {
  }

  /** "L-Hk" spans L to H thousand rupees. */
  lemma PhraseRange(prefix: string, lo: string, hi: string, rest: string)
    requires NoDigits(prefix) && lo != [] && AllDigits(lo) && hi != [] && AllDigits(hi)
    ensures PricePhrase(prefix + lo + "-" + hi + "k" + rest) == RupeeBand(lo, hi)
  {
    SearchRangeK(prefix, lo, hi, rest);
    assert MatchBand(Some(KMatch(lo, Some(hi)))) == RupeeBand(lo, hi);
  }

  lemma PhraseRangeExample()
    ensures PricePhrase("20-25k") == "₹20,000 - ₹25,000"
  {
    assert "" + "20" + "-" + "25" + "k" + "" == "20-25k";
    PhraseRange("", "20", "25", "");
    TwentyToTwentyFive();
  }

  lemma PhraseSingleExample()
    ensures PricePhrase("20k") == "₹20,000 - ₹25,000"
  {
    TwentyK();
    PhraseSingle("", "20", "");
    TwentyPlusFive();
    TwentyToTwentyFive();
  }

  lemma TwentyK()
    ensures "" + "20" + "k" + "" == "20k"
  {
  }

  lemma TwentyPlusFive()
    ensures FivePast("20") == "25"
  {
    assert DigitsValue("20") == 20;
    assert NatToString(25) == NatToString(2) + [DigitChar(5)];
  }

  lemma TwentyToTwentyFive()
    ensures RupeeBand("20", "25") == "₹20,000 - ₹25,000"
  {
  }

  // ---------------------------------------------------------------------------
  // Fallback and the chain
  // ---------------------------------------------------------------------------

  function FallbackProduct(query: string, n: nat, quote: Encoder, title: Encoder): (r: Product)
    ensures r.name.Some? && title(query) <= r.name.value
    ensures r.price == Some(CheckWebsite) && r.inStock == Some(true)
    ensures r.image == Some(UnsplashUrl + quote(query)) && HasSearchLinks(r, quote(query))
  {
    Product(
      name := Some(title(query) + " - Option " + NatToString(n)),
      price := Some(CheckWebsite),
      description := Some("Find the best " + query + " " + "options " + "on " + "e-commerce " +
        "platforms. " + "Browse " + "through " + "various " + "models " + "and " + "compare " +
        "prices."),
      image := Some(UnsplashUrl + quote(query)),
      flipkartLink := Some(FlipkartSearchUrl + quote(query)),
      amazonLink := Some(AmazonSearchUrl + quote(query)),
      rating := Some("4.0+"),
      inStock := Some(true))
  }

  lemma OptionName(t: string, n: string)
    ensures t + " - Option " + n == t + (" - Option " + n)
  {
  }

  lemma OptionLabels()
    ensures " - Option " + NatToString(1) == " - Option 1"
    ensures " - Option " + NatToString(2) == " - Option 2"
    ensures " - Option " + NatToString(3) == " - Option 3"
  {
    assert NatToString(1) == "1" && NatToString(2) == "2" && NatToString(3) == "3";
  }

  /** `create_fallback_products`: options 1, 2 and 3. */
  function CreateFallbackProducts(query: string, quote: Encoder, title: Encoder): (r: seq<Product>)
    ensures |r| == 3
    ensures forall p :: p in r ==> p.price == Some(CheckWebsite) && p.inStock == Some(true)
  {
    seq(3, i requires 0 <= i < 3 => FallbackProduct(query, i + 1, quote, title))
  }

  /** Exactly three options named "<Title> - Option 1..3", with the same fixed fields and the same links. */
  lemma FallbackShape(query: string, quote: Encoder, title: Encoder)
    ensures var r := CreateFallbackProducts(query, quote, title);
      |r| == 3 &&
      r[0].name == Some(title(query) + " - Option 1") &&
      r[1].name == Some(title(query) + " - Option 2") &&
      r[2].name == Some(title(query) + " - Option 3") &&
      forall k :: 0 <= k < 3 ==>
        r[k].price == Some(CheckWebsite) && r[k].rating == Some("4.0+") && r[k].inStock == Some(true) &&
        HasSearchLinks(r[k], quote(query))
  {
    var r := CreateFallbackProducts(query, quote, title);
    OptionLabels();
    OptionName(title(query), NatToString(1));
    OptionName(title(query), NatToString(2));
    OptionName(title(query), NatToString(3));
    forall k | 0 <= k < 3
      ensures r[k].price == Some(CheckWebsite) && r[k].rating == Some("4.0+") && r[k].inStock == Some(true)
      ensures HasSearchLinks(r[k], quote(query))
    {
      assert r[k] == FallbackProduct(query, k + 1, quote, title);
    }
    assert r[0] == FallbackProduct(query, 1, quote, title);
    assert r[1] == FallbackProduct(query, 2, quote, title);
    assert r[2] == FallbackProduct(query, 3, quote, title);
  }

  /** `search_real_products`: DuckDuckGo, else the curated templates, else the fallback. */
  function SearchRealProducts(query: string, related: seq<Topic>, quote: Encoder, title: Encoder): (r: seq<Product>)
    ensures r != []
  {
    DuckDuckGoNonEmpty(query, related, quote);
    WebNonEmpty(query, quote, title);
    var ddg := SearchDuckDuckGo(query, related, quote);
    if ddg.Some? && ddg.value != [] then ddg.value
    else
      var web := SearchProductsWeb(query, quote, title);
      if web != [] then web else CreateFallbackProducts(query, quote, title)
  }

  /** A DuckDuckGo answer, when there is one, holds a product. */
  lemma DuckDuckGoNonEmpty(query: string, related: seq<Topic>, quote: Encoder)
    ensures SearchDuckDuckGo(query, related, quote).Some? ==> SearchDuckDuckGo(query, related, quote).value != []
  {
  }

  /** The curated list is never empty. */
  lemma WebNonEmpty(query: string, quote: Encoder, title: Encoder)
    ensures SearchProductsWeb(query, quote, title) != []
  {
    WebShape(query, quote, title);
  }

  /** The chain is total, and the curated list always stands in for an absent DuckDuckGo answer. */
  lemma ChainTotal(query: string, related: seq<Topic>, quote: Encoder, title: Encoder)
    ensures var r := SearchRealProducts(query, related, quote, title);
      r != [] &&
      match SearchDuckDuckGo(query, related, quote)
      case Some(ps) => r == ps
      case None => r == SearchProductsWeb(query, quote, title)
  {
    DuckDuckGoNonEmpty(query, related, quote);
    WebNonEmpty(query, quote, title);
  }

  /** What the chat client needs of a product to show it in full (see `ProductCard`). */
  predicate Displayable(p: Product) {
    p.name.Some? && p.price.Some? && p.price.value != "" && p.rating.Some? && p.rating.value != "" &&
    p.flipkartLink.Some? && p.flipkartLink.value != "" && p.amazonLink.Some? && p.amazonLink.value != "" &&
    p.inStock != Some(false)
  }

  lemma CuratedDisplayable(p: Product, quote: Encoder)
    requires Curated(p, quote)
    ensures Displayable(p)
  {
  }

  lemma WebDisplayable(query: string, quote: Encoder, title: Encoder)
    ensures forall p :: p in SearchProductsWeb(query, quote, title) ==> Displayable(p)
  {
    var web := SearchProductsWeb(query, quote, title);
    WebShape(query, quote, title);
    forall p | p in web ensures Displayable(p) {
      var k :| 0 <= k < |web| && web[k] == p;
      CuratedDisplayable(p, quote);
    }
  }

  lemma DuckDuckGoDisplayable(query: string, related: seq<Topic>, quote: Encoder)
    ensures SearchDuckDuckGo(query, related, quote).Some? ==>
      forall p :: p in SearchDuckDuckGo(query, related, quote).value ==> Displayable(p)
  {
    DuckDuckGoShape(query, related, quote);
    var ddg := SearchDuckDuckGo(query, related, quote);
    if ddg.Some? {
      var ps := ddg.value;
      forall p | p in ps ensures Displayable(p) {
        var k :| 0 <= k < |ps| && ps[k] == p;
      }
    }
  }

  /** Every product the chain returns has a name, price, rating, both links and is not out of stock. */
  lemma ChainDisplayable(query: string, related: seq<Topic>, quote: Encoder, title: Encoder)
    ensures forall p :: p in SearchRealProducts(query, related, quote, title) ==> Displayable(p)
  {
    WebNonEmpty(query, quote, title);
    DuckDuckGoDisplayable(query, related, quote);
    WebDisplayable(query, quote, title);
  }
}
