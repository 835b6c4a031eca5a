/**
 * The chat component of the web client: how a bot reply is reflowed into paragraphs, which
 * text a failed request shows, and how sending a message changes the conversation state.
 * The HTTP request is an outcome given as input; rendering is left out.
 */
module ChatClient {
  import opened Wrappers
  import opened Text
  import opened Candidates

  // ---------------------------------------------------------------------------
  // Reflowing a reply
  // ---------------------------------------------------------------------------

  const ParagraphBreak := "\n\n"

  /** A reply that already holds a numbered or bulleted list. */
  predicate HasListMarker(text: string) {
    Contains(text, "\n1.") || Contains(text, "\n•")
  }

  /** `formatResponse`: a list is kept as it is; other text has each paragraph trimmed. */
  function FormatResponse(text: string): (r: string)
    ensures HasListMarker(text) ==> r == text
  {
    if HasListMarker(text) then text
    else JoinWith(Map(JsTrim, SplitOn(text, ParagraphBreak)), ParagraphBreak)
  }

  /** A paragraph that splitting on `ParagraphBreak` gives back unchanged once joined. */
  predicate CleanParagraph(p: string) {
    !Contains(p, ParagraphBreak) && (p == [] || p[|p| - 1] != '\n')
  }

  /** The first break in `p + "\n\n" + rest` is the one just after `p`. */
  lemma BreakAfter(p: string, rest: string)
    requires CleanParagraph(p)
    ensures FindFrom(p + ParagraphBreak + rest, ParagraphBreak, 0) == Some(|p|)
  {
    var s := p + ParagraphBreak + rest;
    assert s[|p|..|p| + 2] == ParagraphBreak;
    forall j | 0 <= j < |p| ensures !OccursAt(s, ParagraphBreak, j) {
      if j + 2 <= |p| {
        assert s[j..j + 2] == p[j..j + 2];
        assert !OccursAt(p, ParagraphBreak, j);
      } else {
        assert s[j] == p[|p| - 1];
        assert s[j..j + 2][0] == s[j];
      }
    }
    FirstOccurrence(s, ParagraphBreak, |p|);
  }

  /** Splitting a join of clean paragraphs gives the paragraphs back. */
  lemma {:induction false} SplitJoinParagraphs(ps: seq<string>)
    requires ps != []
    requires forall k :: 0 <= k < |ps| ==> CleanParagraph(ps[k])
    decreases |ps|
    ensures SplitOn(JoinWith(ps, ParagraphBreak), ParagraphBreak) == ps
  {
    if |ps| > 1 {
      var rest := JoinWith(ps[1..], ParagraphBreak);
      var s := ps[0] + ParagraphBreak + rest;
      assert JoinWith(ps, ParagraphBreak) == s;
      BreakAfter(ps[0], rest);
      assert s[..|ps[0]|] == ps[0];
      assert s[|ps[0]| + 2..] == rest;
      SplitJoinParagraphs(ps[1..]);
      assert ps == [ps[0]] + ps[1..];
    }
  }

  /** A trimmed piece of a split is a clean paragraph. */
  lemma TrimmedClean(p: string)
    requires !Contains(p, ParagraphBreak)
    ensures CleanParagraph(JsTrim(p))
  {
    StripKeepsAbsent(p, ParagraphBreak, IsJsSpace);
  }

  /** Without a list marker, the paragraphs of the reflowed reply are the trimmed paragraphs of the reply. */
  lemma FormatParagraphs(text: string)
    requires !HasListMarker(text)
    ensures SplitOn(FormatResponse(text), ParagraphBreak) == Map(JsTrim, SplitOn(text, ParagraphBreak))
  {
    var ps := SplitOn(text, ParagraphBreak);
    var qs := Map(JsTrim, ps);
    forall k | 0 <= k < |qs| ensures CleanParagraph(qs[k]) {
      TrimmedClean(ps[k]);
    }
    SplitJoinParagraphs(qs);
  }

  /** Reflowing twice is reflowing once. */
  lemma FormatIdempotent(text: string)
    ensures FormatResponse(FormatResponse(text)) == FormatResponse(text)
  {
    if !HasListMarker(text) {
      var u := FormatResponse(text);
      if !HasListMarker(u) {
        var qs := Map(JsTrim, SplitOn(text, ParagraphBreak));
        FormatParagraphs(text);
        forall k | 0 <= k < |qs| ensures JsTrim(qs[k]) == qs[k] {
          StripIdempotent(SplitOn(text, ParagraphBreak)[k], IsJsSpace);
        }
        assert Map(JsTrim, qs) == qs;
      }
    }
  }

  /** Reflowing keeps the number of paragraphs. */
  lemma FormatKeepsParagraphCount(text: string)
    ensures |SplitOn(FormatResponse(text), ParagraphBreak)| == |SplitOn(text, ParagraphBreak)|
  {
    if !HasListMarker(text) {
      FormatParagraphs(text);
    }
  }

  // ---------------------------------------------------------------------------
  // Sending a message
  // ---------------------------------------------------------------------------

  datatype Sender = User | Bot

  datatype Message = Message(text: string, sender: Sender, products: seq<Product>)

  const Greeting := Message(
    "\U{1F44B} Hello! I'm " + "your e-commerce " + "customer service " + "assistant. I can " +
    "help you find " + "products, answer " + "questions about " + "orders, and assist " +
    "with any shopping " + "needs. How can I " + "help you today?",
    Bot, [])

  const DefaultError := "Sorry, I couldn't " + "process your " + "request. Please try " + "again."

  /**
   * What the request came to: the reply body (its `response` and, if present, `products`), or a
   * failure with the server's `response` field, if any, and the error's `message`, if any.
   */
  datatype PostOutcome =
    | Delivered(response: string, products: Option<seq<Product>>)
    | Failed(serverResponse: Option<string>, message: Option<string>)

  /** The text a failed request shows: the server's reply, else the error message, else the default. */
  function ErrorText(serverResponse: Option<string>, message: Option<string>): (r: string)
    ensures Truthy(serverResponse) ==> r == serverResponse.value
    ensures !Truthy(serverResponse) && Truthy(message) ==> r == "Error: " + message.value
    ensures !Truthy(serverResponse) && !Truthy(message) ==> r == DefaultError
    ensures r != ""
  {
    if Truthy(serverResponse) then serverResponse.value
    else if Truthy(message) then "Error: " + message.value
    else DefaultError
  }

  /** The bot message that answers a request. */
  function BotMessage(outcome: PostOutcome): (r: Message)
    ensures r.sender == Bot
    ensures outcome.Failed? ==> r.products == [] && r.text != ""
  {
    match outcome
    case Delivered(response, products) => Message(FormatResponse(response), Bot, products.GetOr([]))
    case Failed(serverResponse, message) => Message(ErrorText(serverResponse, message), Bot, [])
  }

  /** The error banner after a request: cleared on success, the error text on failure. */
  function ErrorAfter(outcome: PostOutcome): (r: string)
    ensures r == "" <==> outcome.Delivered?
  {
    match outcome
    case Delivered(_, _) => ""
    case Failed(serverResponse, message) => ErrorText(serverResponse, message)
  }

  /** A failed request shows its error text both in the banner and as the bot's message, without products. */
  lemma FailureShownTwice(outcome: PostOutcome)
    requires outcome.Failed?
    ensures BotMessage(outcome).text == ErrorAfter(outcome) && ErrorAfter(outcome) != ""
    ensures BotMessage(outcome).products == [] && BotMessage(outcome).sender == Bot
  {
  }

  /** A delivered reply clears the banner, and its products are shown as sent, or none. */
  lemma SuccessClearsError(outcome: PostOutcome)
    requires outcome.Delivered?
    ensures ErrorAfter(outcome) == ""
    ensures BotMessage(outcome).products == if outcome.products.Some? then outcome.products.value else []
    ensures BotMessage(outcome).text == FormatResponse(outcome.response)
  {
  }

  lemma AppendTwo<T>(a: seq<T>, x: T, y: T)
    ensures a + [x] + [y] == a + [x, y]
  {
  }

  /** The state of the chat component. */
  class ChatSession {
    var messages: seq<Message>
    var inputMessage: string
    var isLoading: bool
    var error: string

    constructor ()
      ensures messages == [Greeting] && inputMessage == "" && !isLoading && error == ""
    {
      messages := [Greeting];
      inputMessage := "";
      isLoading := false;
      error := "";
    }

    /** The text area's change handler. */
    method SetInput(text: string)
      modifies this
      ensures inputMessage == text
      ensures messages == old(messages) && isLoading == old(isLoading) && error == old(error)
    {
      inputMessage := text;
    }

    /** `!inputMessage.trim()`: the input is empty or all white space. */
    method BlankInput() returns (blank: bool)
      ensures blank <==> AllSpace(inputMessage, IsJsSpace)
    {
      blank := JsTrim(inputMessage) == [];
      StripEmptyIff(inputMessage, IsJsSpace);
    }

    /**
     * `sendMessage` with the request's outcome. An input of white space only changes nothing and sends nothing;
     * otherwise the input is sent and appended as the user's message, then exactly one bot message
     * follows, the input is cleared and loading is over.
     */
    method SendMessage(outcome: PostOutcome) returns (sent: Option<string>)
      modifies this
      ensures AllSpace(old(inputMessage), IsJsSpace) ==>
        sent == None && messages == old(messages) && inputMessage == old(inputMessage) &&
        isLoading == old(isLoading) && error == old(error)
      ensures !AllSpace(old(inputMessage), IsJsSpace) ==>
        sent == Some(old(inputMessage)) &&
        messages == old(messages) + [Message(old(inputMessage), User, []), BotMessage(outcome)] &&
        inputMessage == "" && !isLoading && error == ErrorAfter(outcome)
    {
      var blank := BlankInput();
      if blank {
        return None;
      }
      var userMessage := Message(inputMessage, User, []);
      ghost var before := messages;
      sent := Some(inputMessage);
      messages := messages + [userMessage];
      inputMessage := "";
      isLoading := true;
      ghost var bot := BotMessage(outcome);
      match outcome {
        case Delivered(response, products) =>
          var botMessage := Message(FormatResponse(response), Bot, products.GetOr([]));
          assert botMessage == bot;
          messages := messages + [botMessage];
          error := "";
        case Failed(serverResponse, message) =>
          var errorText := ErrorText(serverResponse, message);
          error := errorText;
          assert Message(errorText, Bot, []) == bot;
          messages := messages + [Message(errorText, Bot, [])];
      }
      AppendTwo(before, userMessage, bot);
      isLoading := false;
    }
  }
}
