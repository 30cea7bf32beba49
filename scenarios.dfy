/** Whole exchanges between the client and the server, each run on fresh
    objects: what the client ends up showing and holding. */
module Scenarios {
  import opened Wrappers
  import opened Text
  import opened Protocol
  import opened ChatSessions
  import TaskRoutes
  import Frontend

  /** The first chat turn after mount, across the whole stack, on fresh
      tables. The new-session route and the task route each own a session
      table; with both fresh, the id the client obtains at mount is one the
      task table has never seen. After the turn settles the client's history
      is exactly what the task table stores under the client's session id, on
      success and on failure alike. */
  method FirstTurnMirrorsServer(message: string, openAi: (string, string) -> Result<string, string>)
    returns (shown: seq<Entry>, stored: seq<Entry>)
    ensures shown == stored
    ensures IsExchangeLog(shown)
    ensures !IsBlank(message) && openAi(ConversationContext(Some([])), message).Success? ==>
      shown == ExchangePair(message, openAi(ConversationContext(Some([])), message).value)
    ensures IsBlank(message) || openAi(ConversationContext(Some([])), message).Failure? ==> shown == []
  {
    var newSessionTable := new ChatService();
    var taskTable := new ChatService();
    var ui := new Frontend.TaskAssistant();
    var created := newSessionTable.GetOrCreateSession("");
    ui.InitializeChat(Frontend.SessionCreated(created));
    assert created == SessionName(1);
    var request := ui.BeginSendChatMessage(message);
    if request.Some? {
      var response := TaskRoutes.TaskAssistant(taskTable, request.value, openAi);
      ui.CompleteSendChatMessage(Frontend.ClientOutcome(response));
    }
    shown := ui.conversationHistory;
    stored := taskTable.GetSessionMessages(ui.currentSessionId);
  }

  /** Two requests that omit the session id land in two different new sessions. */
  method OmittedIdsGiveDistinctSessions(first: string, second: string) returns (a: string, b: string)
    ensures a != b
    ensures a == SessionName(1) && b == SessionName(2)
  {
    var table := new ChatService();
    a := table.GetOrCreateSession(RequestWithDefaults(first).sessionId);
    b := table.GetOrCreateSession(RequestWithDefaults(second).sessionId);
    SessionNameInjective(1, 2);
  }

  /** Two successful turns with server histories `h1` then `h2` leave `h2`:
      the history is replaced, never concatenated. */
  method HistoryIsReplaced(h1: seq<Entry>, h2: seq<Entry>) returns (final: seq<Entry>, sent: seq<Entry>)
    ensures final == h2
    ensures sent == h1
  {
    var ui := new Frontend.TaskAssistant();
    assert "first"[0] == 'f' && "second"[0] == 's';
    var r1 := ui.BeginSendChatMessage("first");
    ui.CompleteSendChatMessage(Frontend.Resolved(Some(Frontend.AssistantReply("one", None, Some(h1), "s1"))));
    var r2 := ui.BeginSendChatMessage("second");
    sent := r2.value.conversationHistory;
    ui.CompleteSendChatMessage(Frontend.Resolved(Some(Frontend.AssistantReply("two", None, Some(h2), "s1"))));
    final := ui.conversationHistory;
  }

  /** A successful turn with one suggestion shows three bubbles (user, reply,
      suggestions) and holds the server's history and session id verbatim. */
  method PlanMyDay() returns (log: seq<Frontend.ChatMessage>, history: seq<Entry>, sessionId: string, typing: bool)
    ensures |log| == 3
    ensures log[0] == Frontend.ChatMessage(Frontend.User, "Plan my day")
    ensures log[1] == Frontend.ChatMessage(Frontend.Assistant, "Here is a plan...")
    ensures log[2].role == Frontend.Assistant
    ensures log[2].content == Frontend.SuggestionsHeader + "\n" + Frontend.BulletPrefix + "Block 9-10am for review"
    ensures history == [Turn("user", "Plan my day"), Turn("assistant", "Here is a plan...")]
    ensures sessionId == "s1" && !typing
  {
    var ui := new Frontend.TaskAssistant();
    assert "Plan my day"[0] == 'P';
    var request := ui.BeginSendChatMessage("Plan my day");
    var h := [Turn("user", "Plan my day"), Turn("assistant", "Here is a plan...")];
    var reply := Frontend.AssistantReply("Here is a plan...", Some(["Block 9-10am for review"]), Some(h), "s1");
    assert Frontend.Bullets(["Block 9-10am for review"]) == [Frontend.BulletPrefix + "Block 9-10am for review"];
    ui.CompleteSendChatMessage(Frontend.Resolved(Some(reply)));
    log, history, sessionId, typing := ui.chatMessages, ui.conversationHistory, ui.currentSessionId, ui.isTyping;
  }

  /** A rejected turn shows one assistant bubble with the server's detail and
      keeps the history and session id the client had. */
  method RateLimited(sessionId: string) returns (log: seq<Frontend.ChatMessage>, history: seq<Entry>, id: string, typing: bool)
    ensures log == [Frontend.ChatMessage(Frontend.User, "hi"),
                    Frontend.ChatMessage(Frontend.Assistant, Frontend.ChatErrorPrefix + "rate limited")]
    ensures history == [] && id == sessionId && !typing
  {
    var ui := new Frontend.TaskAssistant();
    ui.InitializeChat(Frontend.SessionCreated(sessionId));
    assert "hi"[0] == 'h';
    var request := ui.BeginSendChatMessage("hi");
    ui.CompleteSendChatMessage(Frontend.Rejected(Some("rate limited"), "Request failed with status code 500"));
    log, history, id, typing := ui.chatMessages, ui.conversationHistory, ui.currentSessionId, ui.isTyping;
  }

  /** A failed form submit leaves no result, shows the detail or the fixed
      fallback, and is no longer loading. */
  method FailedSubmit(input: string, detail: Option<string>)
    returns (loading: bool, error: string, result: Option<Frontend.AssistantReply>)
    ensures !loading && result == None
    ensures error == if detail.Some? && detail.value != "" then detail.value else Frontend.FormErrorFallback
  {
    var ui := new Frontend.TaskAssistant();
    ui.HandleInputChange("combinedInput", input);
    var request := ui.BeginSubmit();
    ui.CompleteSubmit(Frontend.Rejected(detail, "Network Error"));
    loading, error, result := ui.loading, ui.error, ui.result;
  }

  /** A form-mode submit on a fresh task table: it sends no session id, so
      the table creates `session_1` and stores the form's exchange there. */
  method FormSubmitOnFreshTable(taskTable: ChatService, formText: string,
                                openAi: (string, string) -> Result<string, string>)
    requires taskTable.Valid() && taskTable.sessions == map[] && taskTable.counter == 0
    requires openAi(ConversationContext(Some([])), formText).Success?
    modifies taskTable
    ensures taskTable.Valid() && taskTable.counter == 1
    ensures taskTable.sessions ==
      map[SessionName(1) := ExchangePair(formText, openAi(ConversationContext(Some([])), formText).value)]
  {
    // the request the form mode's submit sends (see BeginSubmit)
    var _ := TaskRoutes.TaskAssistant(taskTable, RequestWithDefaults(formText), openAi);
    assert [] + ExchangePair(formText, openAi(ConversationContext(Some([])), formText).value)
        == ExchangePair(formText, openAi(ConversationContext(Some([])), formText).value);
  }

  /** As wired, the new-session route and the task route own separate tables
      with separate counters. A form submit (no session id) makes the task
      table create `session_1`; a chat client that mounts afterwards is given
      `session_1` by the other table, and its first turn lands in the form's
      session: the history it gets back starts with the form's exchange. */
  method SeparateTablesMixConversations(formText: string, chatText: string,
                                        openAi: (string, string) -> Result<string, string>)
    returns (history: seq<Entry>)
    requires !IsBlank(chatText)
    requires openAi(ConversationContext(Some([])), formText).Success?
    requires openAi(ConversationContext(Some([])), chatText).Success?
    ensures |history| == 4
    ensures history[0] == Turn("user", formText)
    ensures history[2] == Turn("user", chatText)
  {
    var newSessionTable := new ChatService();
    var taskTable := new ChatService();
    FormSubmitOnFreshTable(taskTable, formText, openAi);
    ghost var formPair := ExchangePair(formText, openAi(ConversationContext(Some([])), formText).value);

    var ui := new Frontend.TaskAssistant();
    var created := newSessionTable.GetOrCreateSession("");
    ui.InitializeChat(Frontend.SessionCreated(created));
    assert created == SessionName(1);
    var request := ui.BeginSendChatMessage(chatText);
    assert request.value.sessionId == SessionName(1) && taskTable.IsKnown(SessionName(1));
    assert request.value.conversationHistory == [];
    var response := TaskRoutes.TaskAssistant(taskTable, request.value, openAi);
    assert response.value.conversationHistory ==
      formPair + ExchangePair(chatText, openAi(ConversationContext(Some([])), chatText).value);
    ui.CompleteSendChatMessage(Frontend.ClientOutcome(response));
    history := ui.conversationHistory;
  }

  /** With one table behind both routes, a client's new session is fresh
      whatever the table already holds, so its first turn's history is just
      that turn's exchange (or empty when the AI call fails). */
  method SharedTableKeepsConversationsApart(table: ChatService, chatText: string,
                                            openAi: (string, string) -> Result<string, string>)
    returns (history: seq<Entry>)
    requires table.Valid()
    modifies table
    ensures table.Valid()
    ensures !IsBlank(chatText) && openAi(ConversationContext(Some([])), chatText).Success? ==>
      history == ExchangePair(chatText, openAi(ConversationContext(Some([])), chatText).value)
    ensures IsBlank(chatText) || openAi(ConversationContext(Some([])), chatText).Failure? ==> history == []
  {
    var ui := new Frontend.TaskAssistant();
    var created := table.GetOrCreateSession("");
    ui.InitializeChat(Frontend.SessionCreated(created));
    var request := ui.BeginSendChatMessage(chatText);
    if request.Some? {
      var response := TaskRoutes.TaskAssistant(table, request.value, openAi);
      ui.CompleteSendChatMessage(Frontend.ClientOutcome(response));
    }
    history := ui.conversationHistory;
  }
}
