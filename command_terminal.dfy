/** The floating chat terminal: a toggle, an input line, an append-only
    message history and a "reply pending" flag.  The async submit handler
    is two steps: the synchronous part up to the `await`, and the part that
    runs once the query settles. */
module CommandTerminal {
  import opened Wrappers
  import opened JsString
  import GeminiService

  datatype Role = User | Ai

  datatype Message = Message(role: Role, text: string)

  const GREETING: string := "WARCOM ONLINE. AWAITING ORDERS."
  const CONNECTION_INTERRUPTED: string := "CONNECTION INTERRUPTED."

  /** `disabled={!input.trim() || isTyping}`: the send button is disabled
      exactly when the input is only whitespace or a reply is pending. */
  function SendButtonDisabled(input: string, isTyping: bool): (disabled: bool)
    ensures disabled <==> IsBlank(input) || isTyping
  {
    TrimEmptyIffBlank(input);
    Trim(input) == "" || isTyping
  }

  /** The AI message added once the query settles: its answer, or a fixed
      notice when it threw (None). */
  function ReplyMessage(answer: Option<string>): (m: Message)
    ensures m.role == Ai
    ensures answer.Some? ==> m.text == answer.value
    ensures answer.None? ==> m.text == CONNECTION_INTERRUPTED
  {
    match answer
    case Some(text) => Message(Ai, text)
    case None => Message(Ai, CONNECTION_INTERRUPTED)
  }

  class Terminal {
    var isOpen: bool
    var input: string
    var messages: seq<Message>
    var isTyping: bool

    constructor ()
      ensures !isOpen && input == "" && !isTyping
      ensures messages == [Message(Ai, GREETING)]
    {
      isOpen := false;
      input := "";
      messages := [Message(Ai, GREETING)];
      isTyping := false;
    }

    /** A click on the header flips the panel and changes nothing else. */
    method Toggle()
      modifies this
      ensures isOpen == !old(isOpen)
      ensures input == old(input) && messages == old(messages) && isTyping == old(isTyping)
    {
      isOpen := !isOpen;
    }

    /** The input's `onChange`. */
    method Edit(value: string)
      modifies this
      ensures input == value
      ensures isOpen == old(isOpen) && messages == old(messages) && isTyping == old(isTyping)
    {
      input := value;
    }

    /** The send button's state; a submitted query keeps it disabled
        until the reply settles. */
    function SendDisabled(): bool
      reads this
    {
      SendButtonDisabled(input, isTyping)
    }

    /** `handleSubmit` up to the `await`.  Blank input changes nothing;
        otherwise the input is cleared, the untrimmed text is appended as a
        user message, the reply becomes pending, and the text is returned as
        the query to send. */
    method Submit() returns (query: Option<string>)
      modifies this
      ensures IsBlank(old(input)) ==>
        query == None && input == old(input) && messages == old(messages) && isTyping == old(isTyping)
      ensures !IsBlank(old(input)) ==>
        && query == Some(old(input))
        && input == ""
        && messages == old(messages) + [Message(User, old(input))]
        && isTyping
      ensures query.Some? ==> SendDisabled()
      ensures isOpen == old(isOpen)
    {
      TrimEmptyIffBlank(input);
      if Trim(input) == "" {
        return None;
      }
      var userMsg := input;
      input := "";
      messages := messages + [Message(User, userMsg)];
      isTyping := true;
      query := Some(userMsg);
    }

    /** `handleSubmit` after the `await`: one AI message, and typing ends
        whether the query answered or threw. */
    method Settle(answer: Option<string>)
      modifies this
      ensures messages == old(messages) + [ReplyMessage(answer)]
      ensures !isTyping
      ensures isOpen == old(isOpen) && input == old(input)
    {
      match answer {
        case Some(text) => messages := messages + [Message(Ai, text)];
        case None => messages := messages + [Message(Ai, CONNECTION_INTERRUPTED)];
      }
      isTyping := false;
    }

    /** The whole handler, with `sendTacticalQuery` answering from the SDK
        outcome `call`.  That function never throws, so the history gains
        the user's text followed by the service's answer. */
    method HandleSubmit(apiKey: string, call: GeminiService.SdkReply)
      modifies this
      ensures IsBlank(old(input)) ==>
        input == old(input) && messages == old(messages) && isTyping == old(isTyping)
      ensures !IsBlank(old(input)) ==>
        && input == ""
        && !isTyping
        && messages == old(messages) + [Message(User, old(input)),
             Message(Ai, GeminiService.SendTacticalQuery(apiKey, old(input), call))]
      ensures old(messages) <= messages
      ensures isOpen == old(isOpen)
    {
      var query := Submit();
      if query.Some? {
        var answer := GeminiService.SendTacticalQuery(apiKey, query.value, call);
        Settle(Some(answer));
      }
    }
  }
}
