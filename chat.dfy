/**
 * The decisions of the two routes of the backend. `/api/chat` chooses between the language
 * model's text and the template reply, overrides both for off-topic questions, caps the products
 * at five and turns an error message into one of three replies. `/api/products` searches only
 * for a non-blank query. The language model call is an outcome given as input.
 */
module Chat {
  import opened Wrappers
  import opened Text
  import opened Candidates
  import opened Resolver
  import opened Replies

  /** What the language model call came to: not configured, an answer (maybe empty), or an exception. */
  datatype ModelOutcome = Disabled | Answered(text: string) | Raised(error: string)

  /** The model's text when it is non-empty; in every other case the template reply. */
  function ResponseText(outcome: ModelOutcome, message: string, found: seq<Product>): (r: string)
    ensures r != ""
    ensures r == TemplateReply(message, found) || (outcome.Answered? && r == outcome.text)
  {
    match outcome
    case Answered(t) => if t != "" then t else TemplateReply(message, found)
    case _ => TemplateReply(message, found)
  }

  const OffTopicKeywords: seq<string> :=
    ["weather", "news", "sports", "politics", "general knowledge", "history", "science"]

  /** The lower-cased message mentions one of the off-topic keywords. */
  predicate OffTopic(message: string)
    ensures OffTopic(message) ==> |message| >= 4
  {
    exists k | 0 <= k < |OffTopicKeywords| :: Contains(Lower(message), OffTopicKeywords[k])
  }

  const RedirectReply: string :=
    "I'm here to help you " + "find products on " + "e-commerce platforms " + "like Flipkart and " +
    "Amazon. How can I " + "assist you with " + "finding products " + "today?"

  datatype ErrorKind = QuotaExceeded | ApiKeyError | GenericError

  /** The JSON body of a chat reply. */
  datatype ChatReply = ChatReply(response: string, products: seq<Product>, error: Option<ErrorKind>)

  /**
   * `/api/chat` on the normal path. `message` is the request's "message" field (`None` when
   * absent); `related`, `quote` and `title` are the inputs of the product search.
   */
  function ChatTurn(message: Option<string>, related: seq<Topic>, quote: Encoder, title: Encoder,
                    outcome: ModelOutcome): (r: ChatReply)
    ensures r.error.None? && |r.products| <= 5
    ensures OffTopic(PyStrip(message.GetOr(""))) ==> r.products == []
  {
    var userMessage := PyStrip(message.GetOr(""));
    var found := SearchRealProducts(userMessage, related, quote, title);
    var text := ResponseText(outcome, userMessage, found);
    if OffTopic(userMessage) then ChatReply(RedirectReply, [], None)
    else ChatReply(text, Take(found, 5), None)
  }

  predicate QuotaSignal(e: string)
    ensures QuotaSignal(e) <==> Contains(e, "429") || Contains(Lower(e), "quota")
  {
    QuotaExceededSubsumed(e);
    Contains(e, "429") || Contains(Lower(e), "quota") || Contains(e, "Quota exceeded")
  }

  predicate KeySignal(e: string)
    ensures KeySignal(e) ==> |e| >= 3
  {
    Contains(e, "401") || Contains(e, "403") || Contains(e, "API key")
  }

  const QuotaReply: string :=
    "\U{26A0}\U{FE0F} API Quota " + "Exceeded: You have " + "reached the free " + "tier limit (2 " +
    "requests). Please " + "wait a few minutes " + "and try again, or " + "use a different API " +
    "key with higher " + "limits."

  const KeyReply: string :=
    "\U{26A0}\U{FE0F} API Key " + "Error: Please check " + "your Google API key " + "in the .env file."

  const GenericPrefix: string := "Sorry, I could not " + "process your " + "request. Error: "

  /** `/api/chat` when the handler raised: quota first, then the API key, else a generic reply. */
  function ErrorReply(e: string): (r: ChatReply)
    ensures r.products == [] && r.error.Some?
  {
    if QuotaSignal(e) then ChatReply(QuotaReply, [], Some(QuotaExceeded))
    else if KeySignal(e) then ChatReply(KeyReply, [], Some(ApiKeyError))
    else ChatReply(GenericPrefix + Take(e, 100), [], Some(GenericError))
  }

  /** `/api/products`: the chain's products for a non-blank query, none for a blank one. */
  function GetProducts(q: Option<string>, related: seq<Topic>, quote: Encoder, title: Encoder): (r: seq<Product>)
    ensures r != [] ==> PyStrip(q.GetOr("")) != []
  {
    var query := PyStrip(q.GetOr(""));
    if query != [] then SearchRealProducts(query, related, quote, title) else []
  }

  // ---------------------------------------------------------------------------
  // Properties of the chat turn
  // ---------------------------------------------------------------------------

  /** The model's text is used exactly when the model answered with a non-empty text. */
  lemma ResponseTextChoice(outcome: ModelOutcome, message: string, found: seq<Product>)
    ensures outcome.Answered? && outcome.text != "" ==> ResponseText(outcome, message, found) == outcome.text
    ensures !(outcome.Answered? && outcome.text != "") ==>
      ResponseText(outcome, message, found) == TemplateReply(message, found)
  {
  }

  /** An off-topic question gets the redirect and no products, whatever the model said. */
  lemma OffTopicOverrides(message: Option<string>, related: seq<Topic>, quote: Encoder, title: Encoder,
                          outcome: ModelOutcome)
    requires OffTopic(PyStrip(message.GetOr("")))
    ensures ChatTurn(message, related, quote, title, outcome) == ChatReply(RedirectReply, [], None)
  {
  }

  /**
   * Any other question gets between one and five products, the first ones the search found,
   * with the model's text or the template reply.
   */
  lemma OnTopicProducts(message: Option<string>, related: seq<Topic>, quote: Encoder, title: Encoder,
                        outcome: ModelOutcome)
    requires !OffTopic(PyStrip(message.GetOr("")))
    ensures var userMessage := PyStrip(message.GetOr(""));
      var found := SearchRealProducts(userMessage, related, quote, title);
      var r := ChatTurn(message, related, quote, title, outcome);
      1 <= |r.products| <= 5 && r.products == found[..|r.products|] &&
      (|found| <= 5 ==> r.products == found) &&
      r.response == ResponseText(outcome, userMessage, found) && r.error.None?
  {
    var userMessage := PyStrip(message.GetOr(""));
    OnTopicReply(message, related, quote, title, outcome);
    ChainTotal(userMessage, related, quote, title);
  }

  lemma OnTopicReply(message: Option<string>, related: seq<Topic>, quote: Encoder, title: Encoder,
                     outcome: ModelOutcome)
    requires !OffTopic(PyStrip(message.GetOr("")))
    ensures var userMessage := PyStrip(message.GetOr(""));
      var found := SearchRealProducts(userMessage, related, quote, title);
      ChatTurn(message, related, quote, title, outcome) ==
        ChatReply(ResponseText(outcome, userMessage, found), Take(found, 5), None)
  {
  }

  lemma LowerCharIdempotent(c: char)
    ensures LowerChar(LowerChar(c)) == LowerChar(c)
  {
  }

  lemma LowerIdempotent(s: string)
    ensures Lower(Lower(s)) == Lower(s)
  {
    forall k | 0 <= k < |s| ensures Lower(Lower(s))[k] == Lower(s)[k] {
      LowerCharIdempotent(s[k]);
    }
  }

  /** The off-topic test ignores case: a message and its lower-cased form are judged alike. */
  lemma OffTopicIgnoresCase(message: string)
    ensures OffTopic(Lower(message)) <==> OffTopic(message)
  {
    LowerIdempotent(message);
  }

  // ---------------------------------------------------------------------------
  // Properties of the error reply
  // ---------------------------------------------------------------------------

  /** The kind of an error reply, as an if-and-only-if per kind; no error reply carries products. */
  lemma ErrorKinds(e: string)
    ensures ErrorReply(e).products == []
    ensures ErrorReply(e).error == Some(QuotaExceeded) <==> QuotaSignal(e)
    ensures ErrorReply(e).error == Some(ApiKeyError) <==> !QuotaSignal(e) && KeySignal(e)
    ensures ErrorReply(e).error == Some(GenericError) <==> !QuotaSignal(e) && !KeySignal(e)
  {
  }

  /** A quota signal wins over an API key signal in the same message. */
  lemma QuotaBeforeKey(e: string)
    requires Contains(e, "429") && Contains(e, "401")
    ensures ErrorReply(e).error == Some(QuotaExceeded)
  {
  }

  /** The generic reply quotes at most the first 100 characters of the error. */
  lemma GenericQuotesPrefix(e: string)
    requires !QuotaSignal(e) && !KeySignal(e)
    ensures var r := ErrorReply(e).response;
      |GenericPrefix| <= |r| <= |GenericPrefix| + 100 &&
      r == GenericPrefix + e[..|r| - |GenericPrefix|]
    ensures ErrorReply(e).response == GenericPrefix + (if |e| <= 100 then e else e[..100])
  {
  }

  /** The test for "Quota exceeded" never decides anything: the case-blind "quota" test already holds. */
  lemma QuotaExceededSubsumed(e: string)
    ensures Contains(e, "Quota exceeded") ==> Contains(Lower(e), "quota")
  {
    if Contains(e, "Quota exceeded") {
      var i :| 0 <= i <= |e| && OccursAt(e, "Quota exceeded", i);
      var l := Lower(e);
      forall k | 0 <= k < 5 ensures l[i + k] == "quota"[k] {
        assert e[i + k] == "Quota exceeded"[k];
      }
      assert l[i..i + 5] == "quota";
      assert OccursAt(l, "quota", i);
    }
  }

  // ---------------------------------------------------------------------------
  // Properties of the product route
  // ---------------------------------------------------------------------------

  /** The product route returns nothing exactly for a blank or missing query. */
  lemma ProductsIffQuery(q: Option<string>, related: seq<Topic>, quote: Encoder, title: Encoder)
    ensures GetProducts(q, related, quote, title) == [] <==> PyStrip(q.GetOr("")) == []
  {
    ChainTotal(PyStrip(q.GetOr("")), related, quote, title);
  }

  /** Surrounding spaces do not change what the product route returns. */
  lemma ProductsIgnoreSpaces(q: string, related: seq<Topic>, quote: Encoder, title: Encoder)
    ensures GetProducts(Some(PyStrip(q)), related, quote, title) == GetProducts(Some(q), related, quote, title)
  {
    StripIdempotent(q, IsPySpace);
  }
}
