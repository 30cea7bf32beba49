/** The browser client's chat session manager: the display log, the
    server-owned conversation history, the current session id, the typing
    indicator, and the form mode's loading/error/result trio. Each
    asynchronous handler is split into a step that runs before the HTTP
    request (returning the request it would send) and a step that applies
    the request's outcome. */
module Frontend {
  import opened Wrappers
  import opened Text
  import opened Protocol

  datatype Role = User | Assistant

  /** A display-log entry (its `Date.now()` id and locale time are not modelled). */
  datatype ChatMessage = ChatMessage(role: Role, content: string)

  /** `response.data` of a successful assistant call as the client reads it:
      suggestions and history may be missing. */
  datatype AssistantReply = AssistantReply(
    aiResponse: string,
    taskSuggestions: Option<seq<string>>,
    conversationHistory: Option<seq<Entry>>,
    sessionId: string)

  /** How an HTTP call settles: resolved with a (possibly empty) body, or
      rejected with the server's `detail`, if any, and the error's `message`. */
  datatype CallOutcome =
    | Resolved(data: Option<AssistantReply>)
    | Rejected(detail: Option<string>, message: string)

  /** How `POST /chat/new-session` settles. */
  datatype SessionOutcome = SessionCreated(sessionId: string) | SessionFailed

  const SuggestionsHeader: string := "\U{1F4A1} Suggested Actions:"
  const BulletPrefix: string := "\U{2022} "
  const ChatErrorPrefix: string := "\U{274C} Error: "
  const FormErrorFallback: string := "An error occurred while processing your request"

  /** JavaScript `detail || fallback` for an optional string: an absent or
      empty detail gives the fallback. */
  function OrElse(detail: Option<string>, fallback: string): (r: string)
    ensures detail.Some? && detail.value != "" ==> r == detail.value
    ensures detail.None? || detail.value == "" ==> r == fallback
  {
    if detail.Some? && detail.value != "" then detail.value else fallback
  }

  /** The error bubble's text when a chat send fails. */
  function ChatErrorText(detail: Option<string>, message: string): (r: string)
    ensures |r| == |ChatErrorPrefix| + |OrElse(detail, message)|
    ensures r[..|ChatErrorPrefix|] == ChatErrorPrefix
    ensures r[|ChatErrorPrefix|..] == OrElse(detail, message)
  {
    ChatErrorPrefix + OrElse(detail, message)
  }

  /** The form mode's error text when a submit fails. */
  function FormErrorText(detail: Option<string>): (r: string)
    ensures r != ""
    ensures detail.Some? && detail.value != "" ==> r == detail.value
    ensures detail.None? || detail.value == "" ==> r == FormErrorFallback
  {
    OrElse(detail, FormErrorFallback)
  }

  function Bullets(items: seq<string>): (lines: seq<string>)
    ensures |lines| == |items|
    ensures forall i :: 0 <= i < |items| ==> lines[i] == BulletPrefix + items[i]
  {
    seq(|items|, i requires 0 <= i < |items| => BulletPrefix + items[i])
  }

  /** The text of the suggestions bubble: the header line, then one bullet
      line per suggestion. */
  function SuggestionsText(items: seq<string>): string {
    SuggestionsHeader + "\n" + Join(Bullets(items), "\n")
  }

  /** With no line break inside a suggestion, the bubble reads back as the
      header followed by the suggestions as bullets, in the given order. */
  lemma SuggestionsTextLines(items: seq<string>)
    requires items != []
    requires forall i :: 0 <= i < |items| ==> Free(items[i], '\n')
    ensures Split(SuggestionsText(items), '\n') == [SuggestionsHeader] + Bullets(items)
  {
    var lines := [SuggestionsHeader] + Bullets(items);
    forall j | 0 <= j < |lines| ensures Free(lines[j], '\n') {
      if j > 0 {
        assert lines[j] == BulletPrefix + items[j - 1];
      }
    }
    assert lines[1..] == Bullets(items);
    assert Join(lines, "\n") == SuggestionsText(items);
    SplitJoin(lines, '\n');
  }

  /** Whether a reply carries a non-empty suggestion list. */
  predicate HasSuggestions(reply: AssistantReply) {
    reply.taskSuggestions.Some? && |reply.taskSuggestions.value| > 0
  }

  /** What a successful send appends to the display log: the reply, then a
      separate suggestions bubble exactly when there are suggestions. */
  function ReplyMessages(reply: AssistantReply): (ms: seq<ChatMessage>)
    ensures |ms| == if HasSuggestions(reply) then 2 else 1
    ensures forall i :: 0 <= i < |ms| ==> ms[i].role == Assistant
    ensures ms[0].content == reply.aiResponse
    ensures HasSuggestions(reply) ==> ms[1].content == SuggestionsText(reply.taskSuggestions.value)
  {
    [ChatMessage(Assistant, reply.aiResponse)] +
    if HasSuggestions(reply) then [ChatMessage(Assistant, SuggestionsText(reply.taskSuggestions.value))] else []
  }

  class TaskAssistant {
    /** `formData.combinedInput`, the form mode's only field. */
    var formInput: string
    var loading: bool
    var result: Option<AssistantReply>
    var error: string
    /** The display log. */
    var chatMessages: seq<ChatMessage>
    var currentSessionId: string
    /** The server's authoritative history, sent back on each turn. */
    var conversationHistory: seq<Entry>
    /** The chat input box. */
    var newMessage: string
    var isTyping: bool

    /** The initial hook state, before the mount-time session request settles. */
    constructor ()
      ensures formInput == "" && !loading && result == None && error == ""
      ensures chatMessages == [] && currentSessionId == "" && conversationHistory == []
      ensures newMessage == "" && !isTyping
    {
      formInput := "";
      loading := false;
      result := None;
      error := "";
      chatMessages := [];
      currentSessionId := "";
      conversationHistory := [];
      newMessage := "";
      isTyping := false;
    }

    /** A change event of a form input: only `combinedInput` is ever read back. */
    method HandleInputChange(name: string, value: string)
      modifies this`formInput
      ensures formInput == if name == "combinedInput" then value else old(formInput)
    {
      if name == "combinedInput" {
        formInput := value;
      }
    }

    /** Typing into the chat box. */
    method EditNewMessage(value: string)
      modifies this`newMessage
      ensures newMessage == value
    {
      newMessage := value;
    }

    /** Applies the outcome of `POST /chat/new-session`: adopt the new id on
        success; on failure only log, keeping the old id. */
    method InitializeChat(outcome: SessionOutcome)
      modifies this`currentSessionId
      ensures currentSessionId == if outcome.SessionCreated? then outcome.sessionId else old(currentSessionId)
    {
      match outcome
      case SessionCreated(id) => currentSessionId := id;
      case SessionFailed =>
    }

    /** Appends one message; every earlier message stays, in order. */
    method AddMessageToChat(role: Role, content: string)
      modifies this`chatMessages
      ensures chatMessages == old(chatMessages) + [ChatMessage(role, content)]
      ensures |chatMessages| == |old(chatMessages)| + 1
      ensures chatMessages[..|old(chatMessages)|] == old(chatMessages)
    {
      chatMessages := chatMessages + [ChatMessage(role, content)];
    }

    /** The synchronous part of `sendChatMessage`: a blank message changes
        nothing and sends nothing; otherwise the user message is shown at
        once, the input box cleared, the indicator switched on, and the
        request built from the current session id and history. */
    method BeginSendChatMessage(message: string) returns (request: Option<AssistantRequest>)
      modifies this`chatMessages, this`newMessage, this`isTyping
      ensures IsBlank(message) ==> request == None && unchanged(this)
      ensures !IsBlank(message) ==>
        && chatMessages == old(chatMessages) + [ChatMessage(User, message)]
        && newMessage == ""
        && isTyping
        && request == Some(AssistantRequest(message, "", old(currentSessionId), old(conversationHistory)))
    {
      TrimEmptyIffBlank(message);
      if Trim(message) == "" {
        return None;
      }
      AddMessageToChat(User, message);
      newMessage := "";
      isTyping := true;
      request := Some(AssistantRequest(message, "", currentSessionId, conversationHistory));
    }

    /** The part of `sendChatMessage` after the request settles. The
        indicator goes off on every path. A reply is shown, the history is
        replaced by the server's (never merged), and the server's session id
        adopted; a failure shows one error bubble with the assistant role and
        keeps history and session id. */
    method CompleteSendChatMessage(outcome: CallOutcome)
      modifies this`chatMessages, this`isTyping, this`conversationHistory, this`currentSessionId
      ensures !isTyping
      ensures match outcome
        case Resolved(Some(reply)) =>
          && chatMessages == old(chatMessages) + ReplyMessages(reply)
          && conversationHistory == reply.conversationHistory.GetOr([])
          && currentSessionId == reply.sessionId
        case Resolved(None) =>
          && chatMessages == old(chatMessages)
          && conversationHistory == old(conversationHistory)
          && currentSessionId == old(currentSessionId)
        case Rejected(detail, message) =>
          && chatMessages == old(chatMessages) + [ChatMessage(Assistant, ChatErrorText(detail, message))]
          && conversationHistory == old(conversationHistory)
          && currentSessionId == old(currentSessionId)
    {
      match outcome
      case Resolved(data) =>
        isTyping := false;
        if data.Some? {
          var reply := data.value;
          AddMessageToChat(Assistant, reply.aiResponse);
          conversationHistory := reply.conversationHistory.GetOr([]);
          currentSessionId := reply.sessionId;
          if HasSuggestions(reply) {
            AddMessageToChat(Assistant, SuggestionsText(reply.taskSuggestions.value));
          }
        }
      case Rejected(detail, message) =>
        isTyping := false;
        AddMessageToChat(Assistant, ChatErrorText(detail, message));
    }

    /** Empties the display log and the history, then applies the outcome of
        the new-session request. */
    method StartNewChat(outcome: SessionOutcome)
      modifies this`chatMessages, this`conversationHistory, this`currentSessionId
      ensures chatMessages == [] && conversationHistory == []
      ensures currentSessionId == if outcome.SessionCreated? then outcome.sessionId else old(currentSessionId)
    {
      chatMessages := [];
      conversationHistory := [];
      InitializeChat(outcome);
    }

    /** The synchronous part of `handleSubmit`: loading on, error and result
        cleared, and a request carrying only the form's text. */
    method BeginSubmit() returns (request: AssistantRequest)
      modifies this`loading, this`error, this`result
      ensures loading && error == "" && result == None
      ensures request == RequestWithDefaults(formInput)
    {
      loading := true;
      error := "";
      result := None;
      request := RequestWithDefaults(formInput);
    }

    /** The part of `handleSubmit` after the request settles: the body becomes
        the result, or the error text is set and the result left alone;
        loading goes off on every path. */
    method CompleteSubmit(outcome: CallOutcome)
      modifies this`loading, this`error, this`result
      ensures !loading
      ensures outcome.Resolved? ==> result == outcome.data && error == old(error)
      ensures outcome.Rejected? ==> error == FormErrorText(outcome.detail) && result == old(result)
    {
      match outcome {
        case Resolved(data) => result := data;
        case Rejected(detail, _) => error := FormErrorText(detail);
      }
      loading := false;
    }
  }

  /** How the client sees the server's answer: a 2xx body with every field
      present, or a rejection carrying the JSON `detail` and the HTTP client's
      generic message. */
  function ClientOutcome(r: Result<AssistantResponse, HttpError>): (o: CallOutcome)
    ensures r.Success? ==> o == Resolved(Some(AssistantReply(r.value.aiResponse,
      Some(r.value.taskSuggestions), Some(r.value.conversationHistory), r.value.sessionId)))
    ensures r.Failure? ==> o.Rejected? && o.detail == Some(r.error.detail)
  {
    match r
    case Success(resp) =>
      Resolved(Some(AssistantReply(resp.aiResponse, Some(resp.taskSuggestions),
        Some(resp.conversationHistory), resp.sessionId)))
    case Failure(e) =>
      Rejected(Some(e.detail), "Request failed with status code " + NatToString(e.status))
  }
}
