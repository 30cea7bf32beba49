/** The server's in-memory session table: a map from session id to the
    session's message list, and a counter from which fresh ids are made. */
module ChatSessions {
  import opened Wrappers
  import opened Text
  import opened Protocol

  const SessionPrefix: string := "session_"

  /** The id generated for the n-th new session: `f"session_{n}"`. */
  function SessionName(n: nat): (id: string)
    ensures |id| > |SessionPrefix| && id[..|SessionPrefix|] == SessionPrefix
  {
    SessionPrefix + NatToString(n)
  }

  /** Different counter values give different ids. */
  lemma SessionNameInjective(a: nat, b: nat)
    ensures SessionName(a) == SessionName(b) ==> a == b
  {
    var n := |SessionPrefix|;
    assert SessionName(a)[n..] == NatToString(a);
    assert SessionName(b)[n..] == NatToString(b);
    NatToStringInjective(a, b);
  }

  /** Every key is `session_k` for some 1 <= k <= counter. */
  ghost predicate KeysGenerated(sessions: map<string, seq<Entry>>, counter: nat) {
    forall id :: id in sessions ==> exists k :: 1 <= k <= counter && id == SessionName(k)
  }

  /** A stored message list: user/assistant pairs, in that order, each with
      both keys present. */
  ghost predicate IsExchangeLog(ms: seq<Entry>) {
    && |ms| % 2 == 0
    && (forall i :: 0 <= i < |ms| ==> ms[i].role.Some? && ms[i].content.Some?)
    && (forall i :: 0 <= i < |ms| ==> ms[i].role.value == if i % 2 == 0 then "user" else "assistant")
  }

  /** The messages `update_session` appends for one exchange. */
  function ExchangePair(userMessage: string, aiResponse: string): seq<Entry> {
    [Turn("user", userMessage), Turn("assistant", aiResponse)]
  }

  /** The id the next new session gets is not yet in the table. */
  lemma FreshIdIsAbsent(sessions: map<string, seq<Entry>>, counter: nat)
    requires KeysGenerated(sessions, counter)
    ensures SessionName(counter + 1) !in sessions
  {
    forall k | 1 <= k <= counter ensures SessionName(k) != SessionName(counter + 1) {
      SessionNameInjective(k, counter + 1);
    }
  }

  /** The empty id is never a key, so the `not session_id` test of
      get-or-create only restates `session_id not in chat_sessions`. */
  lemma EmptyIdIsAbsent(sessions: map<string, seq<Entry>>, counter: nat)
    requires KeysGenerated(sessions, counter)
    ensures "" !in sessions
  {
  }

  /** Adding the next generated id keeps every key generated. */
  lemma KeysGeneratedGrow(sessions: map<string, seq<Entry>>, counter: nat, log: seq<Entry>)
    requires KeysGenerated(sessions, counter)
    ensures KeysGenerated(sessions[SessionName(counter + 1) := log], counter + 1)
  {
  }

  /** Appending a pair to a stored message list keeps it a list of pairs. */
  lemma ExchangeLogExtend(ms: seq<Entry>, userMessage: string, aiResponse: string)
    requires IsExchangeLog(ms)
    ensures IsExchangeLog(ms + ExchangePair(userMessage, aiResponse))
  {
  }

  class ChatService {
    /** `chat_sessions`, keeping only each session's message list. */
    var sessions: map<string, seq<Entry>>
    /** `session_counter`: how many sessions were created. */
    var counter: nat

    ghost predicate Valid()
      reads this
    {
      && KeysGenerated(sessions, counter)
      && forall id :: id in sessions ==> IsExchangeLog(sessions[id])
    }

    /** A session id the table holds (the `else` branch of get-or-create). */
    predicate IsKnown(sessionId: string)
      reads this
    {
      sessionId != "" && sessionId in sessions
    }

    constructor ()
      ensures Valid()
      ensures sessions == map[] && counter == 0
    {
      sessions := map[];
      counter := 0;
    }

    /** Returns `sessionId` when the table holds it; otherwise creates the
        next `session_<n>` with no messages and returns it. The creation time
        and the `last_activity` touch are not modelled. */
    method GetOrCreateSession(sessionId: string) returns (id: string)
      requires Valid()
      modifies this
      ensures Valid()
      ensures id in sessions
      ensures old(IsKnown(sessionId)) ==>
        id == sessionId && sessions == old(sessions) && counter == old(counter)
      ensures !old(IsKnown(sessionId)) ==>
        && counter == old(counter) + 1
        && id == SessionName(counter)
        && id !in old(sessions)
        && sessions == old(sessions)[id := []]
    {
      if sessionId == "" || sessionId !in sessions {
        FreshIdIsAbsent(sessions, counter);
        KeysGeneratedGrow(sessions, counter, []);
        counter := counter + 1;
        id := SessionName(counter);
        sessions := sessions[id := []];
      } else {
        id := sessionId;
      }
    }

    /** Appends the user message and then the assistant reply to a known
        session; does nothing for an unknown id. */
    method UpdateSession(sessionId: string, userMessage: string, aiResponse: string)
      requires Valid()
      modifies this`sessions
      ensures Valid()
      ensures sessionId in old(sessions) ==>
        sessions == old(sessions)[sessionId := old(sessions[sessionId]) + ExchangePair(userMessage, aiResponse)]
      ensures sessionId !in old(sessions) ==> sessions == old(sessions)
    {
      if sessionId in sessions {
        ExchangeLogExtend(sessions[sessionId], userMessage, aiResponse);
        var messages := sessions[sessionId];
        messages := messages + [Turn("user", userMessage)];
        messages := messages + [Turn("assistant", aiResponse)];
        assert messages == sessions[sessionId] + ExchangePair(userMessage, aiResponse);
        assert sessions[sessionId := messages].Keys == sessions.Keys;
        sessions := sessions[sessionId := messages];
      }
    }

    /** The stored messages of a session, or [] for an unknown id. */
    function GetSessionMessages(sessionId: string): (ms: seq<Entry>)
      reads this
      ensures sessionId in sessions ==> ms == sessions[sessionId]
      ensures sessionId !in sessions ==> ms == []
    {
      if sessionId in sessions then sessions[sessionId] else []
    }

    /** The fixed default suggestions. */
    function GetTaskSuggestions(): (s: seq<string>)
      ensures |s| == 3
      ensures s[0] == "Break down the task into smaller steps"
      ensures s[1] == "Set specific deadlines for each step"
      ensures s[2] == "Create a checklist to track progress"
    {
      DefaultSuggestions
    }
  }

  const DefaultSuggestions: seq<string> := [
    "Break down the task into smaller steps",
    "Set specific deadlines for each step",
    "Create a checklist to track progress"
  ]

  // ------------------------------------------------------ the AI request

  /** How many of the most recent history entries go into the prompt. */
  const ContextWindow: nat := 5

  /** The last `min(n, |s|)` elements of `s`, in order (`s[-n:]` for n >= 1). */
  function LastN<T>(s: seq<T>, n: nat): (w: seq<T>)
    ensures |w| == if |s| <= n then |s| else n
    ensures w == s[|s| - |w|..]
  {
    if |s| <= n then s else s[|s| - n..]
  }

  /** One history entry as a prompt line. */
  function RenderEntry(e: Entry): string {
    (if e.role == Some("user") then "User" else "Assistant") + ": " + e.content.GetOr("")
  }

  function RenderAll(es: seq<Entry>): (lines: seq<string>)
    ensures |lines| == |es|
    ensures forall i :: 0 <= i < |es| ==> lines[i] == RenderEntry(es[i])
  {
    seq(|es|, i requires 0 <= i < |es| => RenderEntry(es[i]))
  }

  /** The "previous conversation context" put into the prompt: the last five
      entries, one line each, or "" when the history is absent or empty. */
  function ConversationContext(history: Option<seq<Entry>>): (context: string)
    ensures history.None? || history.value == [] ==> context == ""
    ensures history.Some? && history.value != [] ==> context != ""
  {
    match history
    case None => ""
    case Some(h) => if h == [] then "" else Join(RenderAll(LastN(h, ContextWindow)), "\n")
  }

  /** When none of the last five entries has a line break in its rendering,
      the context splits back into those entries' lines, in order. (Older
      entries are never rendered, so nothing is asked of them.) */
  lemma ContextLines(h: seq<Entry>)
    requires h != []
    requires forall i :: 0 <= i < |LastN(h, ContextWindow)| ==> Free(RenderEntry(LastN(h, ContextWindow)[i]), '\n')
    ensures Split(ConversationContext(Some(h)), '\n') == RenderAll(LastN(h, ContextWindow))
    ensures |Split(ConversationContext(Some(h)), '\n')| == if |h| < ContextWindow then |h| else ContextWindow
  {
    var w := LastN(h, ContextWindow);
    var lines := RenderAll(w);
    SplitJoin(lines, '\n');
  }

  /** Entries older than the last five never reach the prompt. */
  lemma ContextIgnoresOlder(older: seq<Entry>, recent: seq<Entry>)
    requires |recent| >= ContextWindow
    ensures ConversationContext(Some(older + recent)) == ConversationContext(Some(recent))
  {
    var h := older + recent;
    assert LastN(h, ContextWindow) == LastN(recent, ContextWindow);
  }

  /** The reply of `get_ai_response`: `openAi` stands for the chat-completion
      call, given the conversation context and the user message (from which
      the system prompt is built); a failure of it becomes an HTTP 500 whose
      detail names it. */
  function GetAiResponse(userMessage: string, history: Option<seq<Entry>>,
                         openAi: (string, string) -> Result<string, string>): (r: Result<string, HttpError>)
    ensures r.Success? <==> openAi(ConversationContext(history), userMessage).Success?
    ensures r.Success? ==> r.value == openAi(ConversationContext(history), userMessage).value
    ensures r.Failure? ==>
      && r.error.status == 500
      && r.error.detail == AiErrorPrefix + openAi(ConversationContext(history), userMessage).error
  {
    match openAi(ConversationContext(history), userMessage)
    case Success(reply) => Success(reply)
    case Failure(e) => Failure(HttpError(500, AiErrorPrefix + e))
  }

  const AiErrorPrefix: string := "Error getting AI response: "
}
