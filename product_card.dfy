/**
 * The product card of the chat client: what it shows for a product, with the defaults the
 * markup falls back to, and the image it loads. The card tries a list of image sources, moving on
 * when one fails to load. The handler as the client writes it finds its place by looking up the
 * current URL; `ImageLoader` drops repeated URLs from the list and keeps the position instead.
 */
module ProductCard {
  import opened Wrappers
  import opened Text
  import opened Candidates
  import opened Resolver

  const PlaceholderPrefix := "https://via.placeholder.com/" + "400x400/667eea/ffffff" + "?text="

  /** The last image source: a placeholder naming the first 20 characters of the product. */
  function FallbackImage(name: string, encode: Encoder): (r: string)
    ensures PlaceholderPrefix <= r
  {
    PlaceholderPrefix + encode(Take(name, 20))
  }

  /** JavaScript `name.split(' ')[0] || 'product'`. */
  function FirstWordOr(name: string): (r: string)
    ensures r != "" && !Contains(r, " ")
    ensures r == "product" || (|r| <= |name| && r == name[..|r|])
  {
    var w := SplitOn(name, " ")[0];
    if w != "" then w else NoSpaceInProduct(); "product"
  }

  lemma NoSpaceInProduct()
    ensures !Contains("product", " ")
  {
    forall j | 0 <= j <= 7 ensures !OccursAt("product", " ", j) {
      if j < 7 {
        assert "product"[j..j + 1][0] == "product"[j];
      }
    }
  }

  /** `[...].filter(Boolean)` over optional strings: the present, non-empty ones, in order. */
  function Present(xs: seq<Option<string>>): (r: seq<string>)
    ensures |r| <= |xs|
    ensures forall s :: s in r <==> Some(s) in xs && s != ""
  {
    if xs == [] then []
    else
      assert forall s :: Some(s) in xs <==> Some(s) == xs[0] || Some(s) in xs[1..];
      (if Truthy(xs[0]) then [xs[0].value] else []) + Present(xs[1..])
  }

  /** The image sources of a card, in the order it tries them. */
  function ImageSources(p: Product, encode: Encoder): (r: seq<string>)
    requires p.name.Some?
    ensures |r| <= 3 && FallbackImage(p.name.value, encode) in r
    ensures forall s :: s in r ==> s != ""
  {
    var name := p.name.value;
    Present([p.image, Some(UnsplashUrl + encode(FirstWordOr(name))), Some(FallbackImage(name, encode))])
  }

  /** The sources are the product's own image when it has one, then the Unsplash search, then the placeholder. */
  lemma SourcesShape(p: Product, encode: Encoder)
    requires p.name.Some?
    ensures var name := p.name.value;
      ImageSources(p, encode) ==
        (if Truthy(p.image) then [p.image.value] else []) +
        [UnsplashUrl + encode(FirstWordOr(name)), FallbackImage(name, encode)]
  {
    var name := p.name.value;
    var a, b := UnsplashUrl + encode(FirstWordOr(name)), FallbackImage(name, encode);
    var xs := [p.image, Some(a), Some(b)];
    assert a != "" && b != "";
    assert xs[1..][1..][1..] == [];
    assert Present(xs[1..][1..]) == [b] + Present([]);
    assert xs[1..] == [Some(a), Some(b)];
    assert Present(xs[1..]) == [a] + Present(xs[1..][1..]);
  }

  // ---------------------------------------------------------------------------
  // The image-error handler as the client writes it
  // ---------------------------------------------------------------------------

  /** JavaScript `Array.prototype.indexOf`: the first index holding `x`, or -1. */
  function IndexOf(xs: seq<string>, x: string): (i: int)
    ensures -1 <= i < |xs|
    ensures i >= 0 ==> xs[i] == x && forall j :: 0 <= j < i ==> xs[j] != x
    ensures i == -1 <==> x !in xs
  {
    if xs == [] then -1
    else if xs[0] == x then 0
    else
      var i := IndexOf(xs[1..], x);
      if i == -1 then -1 else i + 1
  }

  /** The card's image state: the URL it shows and whether every source has failed. */
  datatype ImageState = ImageState(src: string, imageError: bool)

  /** The first state of a card: its first source. */
  function StartImage(sources: seq<string>, fallback: string): (r: ImageState)
    ensures !r.imageError && (r.src in sources || r.src == fallback)
  {
    ImageState(if sources != [] && sources[0] != "" then sources[0] else fallback, false)
  }

  /** One failed load, as written: look the current URL up and move to the source after it. */
  function AsWrittenStep(sources: seq<string>, fallback: string, st: ImageState): (r: ImageState)
    ensures (r.src in sources && r.imageError == st.imageError) || r == ImageState(fallback, true)
  {
    var i := IndexOf(sources, st.src);
    if i < |sources| - 1 then ImageState(sources[i + 1], st.imageError) else ImageState(fallback, true)
  }

  /** The state after `n` failed loads, as written. */
  function AsWrittenFailures(sources: seq<string>, fallback: string, n: nat): ImageState {
    if n == 0 then StartImage(sources, fallback)
    else AsWrittenStep(sources, fallback, AsWrittenFailures(sources, fallback, n - 1))
  }

  /** When the first two sources are the same URL, a failure of the first leaves the state as it is. */
  lemma AsWrittenStuck(sources: seq<string>, fallback: string, st: ImageState)
    requires |sources| >= 2 && sources[0] == sources[1] && st.src == sources[0]
    ensures AsWrittenStep(sources, fallback, st) == st
  {
  }

  /** With a repeated first source, no number of failures moves the card off its first URL. */
  lemma {:induction false} AsWrittenNeverLeaves(sources: seq<string>, fallback: string, n: nat)
    requires |sources| >= 2 && sources[0] == sources[1] && sources[0] != ""
    ensures AsWrittenFailures(sources, fallback, n) == ImageState(sources[0], false)
  {
    if n > 0 {
      AsWrittenNeverLeaves(sources, fallback, n - 1);
      AsWrittenStuck(sources, fallback, ImageState(sources[0], false));
    }
  }

  /** `name` opens with the word `w`, which holds no whitespace, followed by a space. */
  predicate OpensWith(name: string, w: string) {
    w != [] && |w| < |name| && name[..|w|] == w && name[|w|] == ' ' &&
    forall k :: 0 <= k < |w| ==> !IsPySpace(w[k])
  }

  /** The first word of such a name, split on spaces as the client does and on whitespace as the backend does. */
  lemma FirstWords(name: string, w: string)
    requires OpensWith(name, w)
    ensures SplitOn(name, " ")[0] == w
    ensures Words(name) != [] && Words(name)[0] == w
  {
    SplitFirstWord(name, w);
    WordsFirstWord(name, w);
  }

  lemma SplitFirstWord(name: string, w: string)
    requires OpensWith(name, w)
    ensures SplitOn(name, " ")[0] == w
  {
    assert name[|w|..|w| + 1] == " ";
    forall j | 0 <= j < |w| ensures !OccursAt(name, " ", j) {
      assert name[j] == name[..|w|][j] == w[j];
      assert name[j..j + 1][0] == name[j];
    }
    FirstOccurrence(name, " ", |w|);
  }

  lemma WordsFirstWord(name: string, w: string)
    requires OpensWith(name, w)
    ensures Words(name) != [] && Words(name)[0] == w
  {
    assert name[0] == w[0];
    assert forall k :: 0 <= k < |w| ==> name[k] == name[..|w|][k];
    var n := RunEnd(name, 0, IsPyWordChar);
    assert n == |w|;
  }

  /**
   * A curated product named after a word `w` already carries the Unsplash image of that word.
   * When the card's encoding of the word agrees with the backend's, its first two sources coincide.
   */
  lemma CuratedSourcesRepeat(t: Template, query: string, quote: Encoder, encode: Encoder, w: string)
    requires OpensWith(t.name, w)
    requires encode(w) == quote(w)
    ensures var s := ImageSources(CuratedProduct(t, query, quote), encode);
      |s| == 3 && s[0] == s[1] == UnsplashUrl + quote(w) && s[0] != FallbackImage(t.name, encode)
  {
    var p := CuratedProduct(t, query, quote);
    CuratedImage(t, query, quote, w);
    RepeatedSources(p, encode, w);
  }

  lemma CuratedImage(t: Template, query: string, quote: Encoder, w: string)
    requires OpensWith(t.name, w)
    ensures CuratedProduct(t, query, quote).name == Some(t.name)
    ensures CuratedProduct(t, query, quote).image == Some(UnsplashUrl + quote(w))
  {
    WordsFirstWord(t.name, w);
  }

  /** A product showing the Unsplash image of its own first word lists that image twice. */
  lemma RepeatedSources(p: Product, encode: Encoder, w: string)
    requires p.name.Some? && OpensWith(p.name.value, w)
    requires p.image == Some(UnsplashUrl + encode(w))
    ensures var s := ImageSources(p, encode);
      |s| == 3 && s[0] == s[1] == UnsplashUrl + encode(w) && s[0] != FallbackImage(p.name.value, encode)
  {
    SplitFirstWord(p.name.value, w);
    SourcesShape(p, encode);
    assert FirstWordOr(p.name.value) == w;
    assert (UnsplashUrl + encode(w))[8] == 's';
    assert FallbackImage(p.name.value, encode)[8] == 'v';
  }

  /**
   * The image of such a curated card never reaches the placeholder, and the card never records
   * that all its sources failed: it keeps showing the first URL.
   */
  lemma CuratedCardStuck(t: Template, query: string, quote: Encoder, encode: Encoder, w: string, n: nat)
    requires OpensWith(t.name, w)
    requires encode(w) == quote(w)
    ensures var s := ImageSources(CuratedProduct(t, query, quote), encode);
      var st := AsWrittenFailures(s, FallbackImage(t.name, encode), n);
      st.src == UnsplashUrl + quote(w) && st.src != FallbackImage(t.name, encode) && !st.imageError
  {
    CuratedSourcesRepeat(t, query, quote, encode, w);
    var s := ImageSources(CuratedProduct(t, query, quote), encode);
    AsWrittenNeverLeaves(s, FallbackImage(t.name, encode), n);
  }

  const SeikoName := "Seiko 5 Sports Automatic SRPD Series"

  /** The first curated watch is named "Seiko 5 Sports Automatic SRPD Series". */
  lemma SeikoIsFirstWatch()
    ensures KeywordTemplates(0)[0].name == SeikoName
  {
  }

  lemma SeikoOpens()
    ensures OpensWith(SeikoName, "Seiko")
  {
    assert SeikoName[..5] == "Seiko";
  }

  /** A curated card named like the first curated watch is such a card. */
  lemma SeikoCardStuck(t: Template, query: string, quote: Encoder, encode: Encoder, n: nat)
    requires t.name == SeikoName
    requires encode("Seiko") == quote("Seiko")
    ensures var st := AsWrittenFailures(ImageSources(CuratedProduct(t, query, quote), encode), FallbackImage(t.name, encode), n);
      st.src == UnsplashUrl + quote("Seiko") && !st.imageError
  {
    SeikoOpens();
    CuratedCardStuck(t, query, quote, encode, "Seiko", n);
  }

  // ---------------------------------------------------------------------------
  // The handler that keeps its position, over distinct sources
  // ---------------------------------------------------------------------------

  /** No URL occurs twice. */
  predicate NoRepeats(xs: seq<string>) {
    forall i, j :: 0 <= i < j < |xs| ==> xs[i] != xs[j]
  }

  /** The sources with each URL kept at its last place only, so the placeholder stays last. */
  function DistinctSources(xs: seq<string>): (r: seq<string>)
    ensures NoRepeats(r)
    ensures forall x :: x in r <==> x in xs
    ensures xs != [] ==> r != [] && r[|r| - 1] == xs[|xs| - 1]
  {
    if xs == [] then []
    else if xs[0] in xs[1..] then DistinctSources(xs[1..])
    else
      var rest := DistinctSources(xs[1..]);
      assert forall j :: 0 <= j < |rest| ==> rest[j] in xs[1..];
      [xs[0]] + rest
  }

  /** The image state with the position of the source being shown. */
  datatype LoaderState = LoaderState(index: nat, src: string, imageError: bool)

  function StartLoader(sources: seq<string>, fallback: string): LoaderState {
    LoaderState(0, StartImage(sources, fallback).src, false)
  }

  /** One failed load: the next source by position, or the placeholder and the error once none is left. */
  function LoaderStep(sources: seq<string>, fallback: string, st: LoaderState): LoaderState {
    if st.index + 1 < |sources| then LoaderState(st.index + 1, sources[st.index + 1], st.imageError)
    else LoaderState(st.index, fallback, true)
  }

  function LoaderFailures(sources: seq<string>, fallback: string, n: nat): LoaderState {
    if n == 0 then StartLoader(sources, fallback)
    else LoaderStep(sources, fallback, LoaderFailures(sources, fallback, n - 1))
  }

  /** The loader shows the sources one after another and reports an error exactly once all have failed. */
  lemma {:induction false} LoaderWalksSources(sources: seq<string>, fallback: string, n: nat)
    requires sources != [] && sources[0] != ""
    ensures var st := LoaderFailures(sources, fallback, n);
      (n < |sources| ==> st == LoaderState(n, sources[n], false)) &&
      (n >= |sources| ==> st == LoaderState(|sources| - 1, fallback, true))
  {
    if n > 0 {
      LoaderWalksSources(sources, fallback, n - 1);
    }
  }

  /** Over distinct sources every failure but the last shows a new URL, so the browser loads again. */
  lemma LoaderShowsNewUrl(sources: seq<string>, fallback: string, st: LoaderState)
    requires NoRepeats(sources) && st.index + 1 < |sources| && st.src == sources[st.index]
    ensures LoaderStep(sources, fallback, st).src != st.src
  {
  }

  /** Where no URL repeats, the handler as written and the loader move alike. */
  lemma AgreesWhenDistinct(sources: seq<string>, fallback: string, st: LoaderState)
    requires forall i, j :: 0 <= i < j < |sources| ==> sources[i] != sources[j]
    requires st.index < |sources| && st.src == sources[st.index]
    ensures var a := AsWrittenStep(sources, fallback, ImageState(st.src, st.imageError));
      var b := LoaderStep(sources, fallback, st);
      a == ImageState(b.src, b.imageError)
  {
    assert IndexOf(sources, st.src) == st.index;
  }

  /** Over distinct sources ending in the placeholder, both handlers pass through the same states. */
  lemma {:induction false} AgreeOnDistinct(sources: seq<string>, fallback: string, n: nat)
    requires NoRepeats(sources) && sources != [] && sources[0] != "" && sources[|sources| - 1] == fallback
    ensures var st := LoaderFailures(sources, fallback, n);
      AsWrittenFailures(sources, fallback, n) == ImageState(st.src, st.imageError)
  {
    if n > 0 {
      var prev := LoaderFailures(sources, fallback, n - 1);
      AgreeOnDistinct(sources, fallback, n - 1);
      LoaderOnSource(sources, fallback, n - 1);
      AgreesWhenDistinct(sources, fallback, prev);
    }
  }

  /** The loader always shows the source at its position when the placeholder is the last source. */
  lemma LoaderOnSource(sources: seq<string>, fallback: string, n: nat)
    requires sources != [] && sources[0] != "" && sources[|sources| - 1] == fallback
    ensures var st := LoaderFailures(sources, fallback, n);
      st.index < |sources| && st.src == sources[st.index]
  {
    LoaderWalksSources(sources, fallback, n);
  }

  /** A card with one image and the placeholder shows the placeholder, then reports the error. */
  lemma TwoSourcesRecover(u: string, fallback: string)
    requires u != "" && u != fallback
    ensures LoaderFailures([u, fallback], fallback, 1) == LoaderState(1, fallback, false)
    ensures LoaderFailures([u, fallback], fallback, 2) == LoaderState(1, fallback, true)
    ensures AsWrittenFailures([u, fallback], fallback, 2) == ImageState(fallback, true)
  {
    LoaderWalksSources([u, fallback], fallback, 1);
    LoaderWalksSources([u, fallback], fallback, 2);
    AgreeOnDistinct([u, fallback], fallback, 2);
  }

  /** Dropping the repeat of a doubled first URL leaves that URL and the placeholder. */
  lemma DistinctOfDoubled(u: string, fallback: string)
    requires u != fallback
    ensures DistinctSources([u, u, fallback]) == [u, fallback]
  {
    assert [u, u, fallback][1..] == [u, fallback];
    assert [u, fallback][1..] == [fallback];
    assert [fallback][1..] == [];
    assert DistinctSources([fallback]) == [fallback];
  }

  /** De-duplicated, the sources of a curated card whose name opens with `w` are its image and the placeholder. */
  lemma CuratedDistinctSources(t: Template, query: string, quote: Encoder, encode: Encoder, w: string)
    requires OpensWith(t.name, w)
    requires encode(w) == quote(w)
    ensures var u := UnsplashUrl + quote(w);
      var fb := FallbackImage(t.name, encode);
      DistinctSources(ImageSources(CuratedProduct(t, query, quote), encode)) == [u, fb] &&
      u != "" && u != fb
  {
    CuratedSourcesRepeat(t, query, quote, encode, w);
    var u := UnsplashUrl + quote(w);
    var fb := FallbackImage(t.name, encode);
    var s := ImageSources(CuratedProduct(t, query, quote), encode);
    ThreeWithRepeat(s, u, fb);
    DistinctOfDoubled(u, fb);
  }

  lemma ThreeWithRepeat(s: seq<string>, u: string, fallback: string)
    requires |s| == 3 && s[0] == s[1] == u && u != fallback && fallback in s
    ensures s == [u, u, fallback]
  {
  }

  /** Over de-duplicated sources such a card shows the placeholder, then reports the error. */
  lemma CuratedCardRecovers(t: Template, query: string, quote: Encoder, encode: Encoder, w: string)
    requires OpensWith(t.name, w)
    requires encode(w) == quote(w)
    ensures var s := DistinctSources(ImageSources(CuratedProduct(t, query, quote), encode));
      var fb := FallbackImage(t.name, encode);
      LoaderFailures(s, fb, 1) == LoaderState(1, fb, false) &&
      LoaderFailures(s, fb, 2) == LoaderState(1, fb, true) &&
      AsWrittenFailures(s, fb, 2) == ImageState(fb, true)
  {
    CuratedDistinctSources(t, query, quote, encode, w);
    TwoSourcesRecover(UnsplashUrl + quote(w), FallbackImage(t.name, encode));
  }

  /**
   * With its sources de-duplicated, the card of the first curated watch shows the placeholder
   * after its image fails and reports the error once the placeholder fails too, whichever of
   * the two handlers runs.
   */
  lemma SeikoCardRecovers(t: Template, query: string, quote: Encoder, encode: Encoder)
    requires t.name == SeikoName
    requires encode("Seiko") == quote("Seiko")
    ensures var s := DistinctSources(ImageSources(CuratedProduct(t, query, quote), encode));
      var fb := FallbackImage(t.name, encode);
      s == [UnsplashUrl + quote("Seiko"), fb] &&
      LoaderFailures(s, fb, 1) == LoaderState(1, fb, false) &&
      LoaderFailures(s, fb, 2) == LoaderState(1, fb, true) &&
      AsWrittenFailures(s, fb, 2) == ImageState(fb, true)
  {
    SeikoOpens();
    CuratedDistinctSources(t, query, quote, encode, "Seiko");
    CuratedCardRecovers(t, query, quote, encode, "Seiko");
  }

  /** The de-duplicated sources are non-empty URLs, none twice, ending with the placeholder. */
  lemma LoaderSources(p: Product, encode: Encoder)
    requires p.name.Some?
    ensures var d := DistinctSources(ImageSources(p, encode));
      d != [] && d[|d| - 1] == FallbackImage(p.name.value, encode) && NoRepeats(d) &&
      forall k :: 0 <= k < |d| ==> d[k] != ""
  {
    SourcesShape(p, encode);
    var all := ImageSources(p, encode);
    var d := DistinctSources(all);
    assert forall k :: 0 <= k < |d| ==> d[k] in all;
  }

  /**
   * The image of one card. The product, and so the sources, are fixed for the loader's life;
   * a URL the list would repeat is tried once only.
   */
  class ImageLoader {
    const sources: seq<string>
    const fallback: string
    var index: nat
    var imageSrc: string
    var imageError: bool

    function State(): LoaderState
      reads this
    {
      LoaderState(index, imageSrc, imageError)
    }

    /** The placeholder is the last source and the card shows the source at `index`. */
    ghost predicate Valid()
      reads this
    {
      sources != [] && sources[|sources| - 1] == fallback && NoRepeats(sources) &&
      (forall k :: 0 <= k < |sources| ==> sources[k] != "") &&
      index < |sources| && imageSrc == sources[index] && (imageError ==> index == |sources| - 1)
    }

    /** What `<img src={imageSrc || fallbackImage}>` loads. */
    function Shown(): string
      reads this
    {
      if imageSrc != "" then imageSrc else fallback
    }

    constructor (p: Product, encode: Encoder)
      requires p.name.Some?
      ensures sources == DistinctSources(ImageSources(p, encode)) && fallback == FallbackImage(p.name.value, encode)
      ensures State() == StartLoader(sources, fallback)
      ensures Valid() && Shown() == imageSrc
    {
      var distinct := DistinctSources(ImageSources(p, encode));
      LoaderSources(p, encode);
      sources := distinct;
      fallback := FallbackImage(p.name.value, encode);
      index := 0;
      imageSrc := distinct[0];
      imageError := false;
    }

    method HandleImageError()
      requires Valid()
      modifies this
      ensures State() == LoaderStep(sources, fallback, old(State()))
      ensures old(index) + 1 < |sources| ==> imageSrc != old(imageSrc)
      ensures Valid() && Shown() == imageSrc
    {
      if index + 1 < |sources| {
        index := index + 1;
        imageSrc := sources[index];
      } else {
        imageError := true;
        imageSrc := fallback;
      }
    }

    /** A successful load clears the error and leaves the source as it is. */
    method HandleLoad()
      requires Valid()
      modifies this
      ensures State() == LoaderState(old(index), old(imageSrc), false)
      ensures Valid() && Shown() == imageSrc
    {
      imageError := false;
    }
  }

  // ---------------------------------------------------------------------------
  // What the card shows
  // ---------------------------------------------------------------------------

  datatype Marketplace = Flipkart | Amazon

  /** A buy button and the URL it opens in a new tab. */
  datatype Button = Button(market: Marketplace, url: string)

  /** The text and controls of a card, apart from the image. */
  datatype Card = Card(name: string, description: string, rating: string, price: string,
                       stockBadge: bool, buttons: seq<Button>)

  function RenderCard(p: Product): (r: Card)
    requires p.name.Some?
    ensures r.name == p.name.value && r.rating != "" && r.price != "" && |r.buttons| <= 2
  {
    Card(
      name := p.name.value,
      description := p.description.GetOr(""),
      rating := if Truthy(p.rating) then p.rating.value else "4.0",
      price := if Truthy(p.price) then p.price.value else CheckWebsite,
      stockBadge := p.inStock != Some(false),
      buttons := (if Truthy(p.flipkartLink) then [Button(Flipkart, p.flipkartLink.value)] else []) +
                 (if Truthy(p.amazonLink) then [Button(Amazon, p.amazonLink.value)] else []))
  }

  /**
   * The defaults: a card shows "4.0" and "Check website" only for a missing or empty rating and
   * price, hides the badge only for a product known to be out of stock, and has a button for a
   * marketplace exactly when the product links to it.
   */
  lemma CardDefaults(p: Product)
    requires p.name.Some?
    ensures var c := RenderCard(p);
      c.rating != "" && c.price != "" && |c.buttons| <= 2 &&
      (Truthy(p.rating) <==> c.rating == p.rating.GetOr("")) &&
      (Truthy(p.price) <==> c.price == p.price.GetOr("")) &&
      (c.stockBadge <==> p.inStock != Some(false)) &&
      (Truthy(p.flipkartLink) <==> Button(Flipkart, p.flipkartLink.GetOr("")) in c.buttons) &&
      (Truthy(p.amazonLink) <==> Button(Amazon, p.amazonLink.GetOr("")) in c.buttons)
  {
  }

  /**
   * Every product the backend's search returns shows its own rating and price, the stock badge,
   * and both buy buttons, Flipkart first: no default of the card ever shows for them.
   */
  lemma SearchResultsShowInFull(query: string, related: seq<Topic>, quote: Encoder, title: Encoder, p: Product)
    requires p in SearchRealProducts(query, related, quote, title)
    ensures Displayable(p)
    ensures var c := RenderCard(p);
      c.rating == p.rating.value && c.price == p.price.value && c.stockBadge &&
      c.buttons == [Button(Flipkart, p.flipkartLink.value), Button(Amazon, p.amazonLink.value)]
  {
    ChainDisplayable(query, related, quote, title);
  }
}
