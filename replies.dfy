/**
 * The two reply builders of the backend: the template reply shown when no language model
 * answers, and the product summary over the legacy catalog. Both grow a string one product at
 * a time, over at most the first three products.
 */
module Replies {
  import opened Wrappers
  import opened Text
  import opened Candidates
  import Legacy

  // ---------------------------------------------------------------------------
  // The template reply
  // ---------------------------------------------------------------------------

  /** The block of one product, with the defaults `.get` falls back to for a missing key. */
  function ProductBlock(p: Product): (r: string)
    ensures |r| >= 4 && r[..2] == "**" && r[|r| - 2..] == "\n\n"
  {
    "**" + p.name.GetOr("Product") + "**\n" +
    "Price: " + p.price.GetOr(CheckWebsite) + "\n" +
    "Rating: " + p.rating.GetOr("N/A") + " \U{2B50}\n" +
    p.description.GetOr("") + "\n\n"
  }

  /** The user's message between single quotes, as both replies show it. */
  function Quoted(message: string): string {
    "'" + message + "'"
  }

  const FoundLead := "Great! I found " + "some excellent " + "options for "

  function FoundIntro(message: string): string {
    FoundLead + Quoted(message) + ":\n\n"
  }

  const TipAndClosing: string :=
    "\U{1F4A1} **Tip:** " + "Click the 'Buy on " + "Flipkart' or 'Buy " + "on Amazon' buttons " +
    "below each product " + "to view more " + "details, compare " + "prices, and make a " +
    "purchase!\n\n" +
    "All products come " + "with secure payment " + "options and " + "reliable delivery. " +
    "Happy shopping! " + "\U{1F6CD}\U{FE0F}"

  const RephraseLead := "I'd be happy to " + "help you find the " + "best "

  const RephraseTail: string :=
    " options!\n\n" +
    "Please try " + "searching with more " + "specific terms, or " + "browse our product " +
    "categories. " +
    "You can click on " + "the product links " + "to explore options " + "on Flipkart and " +
    "Amazon.\n\n" +
    "How else can I " + "assist you today? " + "\U{1F60A}"

  function RephraseReply(message: string): string {
    RephraseLead + Quoted(message) + RephraseTail
  }

  /** The template reply: the blocks of the first three products, or the rephrase message. */
  function TemplateReply(message: string, products: seq<Product>): (r: string)
    ensures products != [] ==> FoundIntro(message) <= r
    ensures products == [] ==> r == RephraseReply(message)
  {
    if products != [] then FoundIntro(message) + Concat(ProductBlock, Take(products, 3)) + TipAndClosing
    else RephraseReply(message)
  }

  /** `generate_template_response`, growing the reply one block at a time. */
  method GenerateTemplateResponse(message: string, products: seq<Product>) returns (response: string)
    ensures response == TemplateReply(message, products)
  {
    if products != [] {
      response := AppendEach(FoundIntro(message), ProductBlock, Take(products, 3));
      response := response + TipAndClosing;
    } else {
      response := RephraseReply(message);
    }
  }

  predicate StartsWith(s: string, prefix: string) {
    |prefix| <= |s| && s[..|prefix|] == prefix
  }

  lemma StartsWithAppend(s: string, t: string, prefix: string)
    requires StartsWith(s, prefix)
    ensures StartsWith(s + t, prefix)
  {
    assert (s + t)[..|prefix|] == s[..|prefix|];
  }

  lemma IntroOpening(message: string)
    ensures StartsWith(FoundIntro(message), "Great! I found")
  {
    assert FoundLead[..14] == "Great! I found";
    StartsWithAppend(FoundLead, Quoted(message), "Great! I found");
    StartsWithAppend(FoundLead + Quoted(message), ":\n\n", "Great! I found");
  }

  lemma RephraseOpening(message: string)
    ensures !StartsWith(RephraseReply(message), "Great! I found")
  {
    assert RephraseReply(message)[0] == RephraseLead[0] == 'I';
  }

  /** The reply opens with "Great! I found" exactly when there are products to show. */
  lemma ReplyOpening(message: string, products: seq<Product>)
    ensures StartsWith(TemplateReply(message, products), "Great! I found") <==> products != []
  {
    if products != [] {
      IntroOpening(message);
      StartsWithAppend(FoundIntro(message), Concat(ProductBlock, Take(products, 3)), "Great! I found");
      StartsWithAppend(FoundIntro(message) + Concat(ProductBlock, Take(products, 3)), TipAndClosing, "Great! I found");
    } else {
      RephraseOpening(message);
    }
  }

  /** The quoted message sits between a lead and a tail. */
  lemma QuotedBetween(lead: string, message: string, tail: string)
    ensures OccursAt(lead + Quoted(message) + tail, Quoted(message), |lead|)
  {
    var q := Quoted(message);
    assert q[0..|q|] == q;
    OccursInRight(lead, q, q, 0);
    OccursInLeft(lead + q, tail, q, |lead|);
  }

  /** Both replies quote the user's message. */
  lemma ReplyQuotesMessage(message: string, products: seq<Product>)
    ensures Contains(TemplateReply(message, products), Quoted(message))
  {
    var q := Quoted(message);
    if products != [] {
      QuotedBetween(FoundLead, message, ":\n\n");
      OccursInLeft(FoundIntro(message), Concat(ProductBlock, Take(products, 3)), q, |FoundLead|);
      OccursInLeft(FoundIntro(message) + Concat(ProductBlock, Take(products, 3)), TipAndClosing, q, |FoundLead|);
      assert OccursAt(TemplateReply(message, products), q, |FoundLead|);
    } else {
      QuotedBetween(RephraseLead, message, RephraseTail);
      assert OccursAt(TemplateReply(message, products), q, |RephraseLead|);
    }
  }

  /** Each of the first three products has its block in the reply. */
  lemma ReplyShowsFirstThree(message: string, products: seq<Product>, k: nat)
    requires k < |products| && k < 3
    ensures Contains(TemplateReply(message, products), ProductBlock(products[k]))
  {
    var shown := Take(products, 3);
    assert shown[k] == products[k];
    ConcatContainsPiece(ProductBlock, shown, k);
    ContainsInMiddle(FoundIntro(message), Concat(ProductBlock, shown), TipAndClosing, ProductBlock(products[k]));
  }

  /** Products after the third leave the reply as it is. */
  lemma ReplyIgnoresRest(message: string, products: seq<Product>)
    requires |products| > 3
    ensures TemplateReply(message, products) == TemplateReply(message, products[..3])
  {
    assert Take(products[..3], 3) == products[..3];
  }

  /** The product with every missing key of the template reply filled in with its default. */
  function WithReplyDefaults(p: Product): (r: Product)
    ensures r.name.Some? && r.price.Some? && r.rating.Some? && r.description.Some?
    ensures p.name.None? ==> r.name == Some("Product")
    ensures p.price.None? ==> r.price == Some(CheckWebsite)
    ensures p.rating.None? ==> r.rating == Some("N/A")
    ensures p.description.None? ==> r.description == Some("")
  {
    p.(name := Some(p.name.GetOr("Product")), price := Some(p.price.GetOr(CheckWebsite)),
       rating := Some(p.rating.GetOr("N/A")), description := Some(p.description.GetOr("")))
  }

  /** A missing key shows exactly as its default would. */
  lemma BlockDefaults(p: Product)
    ensures ProductBlock(p) == ProductBlock(WithReplyDefaults(p))
  {
  }

  // ---------------------------------------------------------------------------
  // The product summary over the legacy catalog
  // ---------------------------------------------------------------------------

  const SummaryHeader := "\n\nAvailable Products:\n"

  /** One summary line; `showPrice` renders the price as Python's `str(float)` does. */
  function SummaryLine(showPrice: real -> string): Legacy.Entry -> string {
    (e: Legacy.Entry) => "- " + e.name + " ($" + showPrice(e.price) + ") - " + e.description + "\n"
  }

  /** `None` for no products, else the header and the lines of the first three. */
  function ProductSummary(entries: seq<Legacy.Entry>, showPrice: real -> string): (r: Option<string>)
    ensures r.None? <==> entries == []
  {
    if entries == [] then None
    else Some(SummaryHeader + Concat(SummaryLine(showPrice), Take(entries, 3)))
  }

  /** `format_product_response` (the user message it takes is unused). */
  method FormatProductResponse(entries: seq<Legacy.Entry>, showPrice: real -> string) returns (r: Option<string>)
    ensures r == ProductSummary(entries, showPrice)
  {
    if entries == [] {
      return None;
    }
    var info := AppendEach(SummaryHeader, SummaryLine(showPrice), Take(entries, 3));
    r := Some(info);
  }

  /** The summary is absent exactly for an empty list; when present it starts with the header. */
  lemma SummaryShape(entries: seq<Legacy.Entry>, showPrice: real -> string)
    ensures ProductSummary(entries, showPrice).None? <==> entries == []
    ensures ProductSummary(entries, showPrice).Some? ==>
      StartsWith(ProductSummary(entries, showPrice).value, SummaryHeader)
  {
  }

  /** Each of the first three entries has its line in the summary. */
  lemma SummaryShowsFirstThree(entries: seq<Legacy.Entry>, showPrice: real -> string, k: nat)
    requires k < |entries| && k < 3
    ensures ProductSummary(entries, showPrice).Some?
    ensures Contains(ProductSummary(entries, showPrice).value, SummaryLine(showPrice)(entries[k]))
  {
    var shown := Take(entries, 3);
    assert shown[k] == entries[k];
    ConcatContainsPiece(SummaryLine(showPrice), shown, k);
    ContainsInMiddle(SummaryHeader, Concat(SummaryLine(showPrice), shown), "", SummaryLine(showPrice)(entries[k]));
    assert SummaryHeader + Concat(SummaryLine(showPrice), shown) + "" == SummaryHeader + Concat(SummaryLine(showPrice), shown);
  }

  /** Entries after the third leave the summary as it is. */
  lemma SummaryIgnoresRest(entries: seq<Legacy.Entry>, showPrice: real -> string)
    requires |entries| > 3
    ensures ProductSummary(entries, showPrice) == ProductSummary(entries[..3], showPrice)
  {
    assert Take(entries[..3], 3) == entries[..3];
  }
}
