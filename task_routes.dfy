/** The `POST /task/assistant` handler over the route module's own session
    table: get-or-create the session, ask the AI, record the exchange, read
    the history back. */
module TaskRoutes {
  import opened Wrappers
  import opened Text
  import opened Protocol
  import opened ChatSessions

  /** `str()` of an HTTP exception, as the web framework renders it:
      the status code, a colon and a space, then the detail. */
  function ExceptionText(e: HttpError): string {
    NatToString(e.status) + ": " + e.detail
  }

  method TaskAssistant(service: ChatService, request: AssistantRequest,
                       openAi: (string, string) -> Result<string, string>)
    returns (r: Result<AssistantResponse, HttpError>)
    requires service.Valid()
    modifies service
    ensures service.Valid()
    ensures r.Success? ==> r.value.sessionId in service.sessions
    ensures r.Success? ==> IsExchangeLog(r.value.conversationHistory)
    ensures
      var known := old(service.IsKnown(request.sessionId));
      var sid := if known then request.sessionId else SessionName(old(service.counter) + 1);
      var prior := if known then old(service.sessions)[request.sessionId] else [];
      && service.counter == (if known then old(service.counter) else old(service.counter) + 1)
      && (!known ==> sid !in old(service.sessions))
      && match openAi(ConversationContext(Some(request.conversationHistory)), request.userMessage)
         case Failure(e) =>
           && service.sessions == old(service.sessions)[sid := prior]
           && r == Failure(HttpError(500, ExceptionText(HttpError(500, AiErrorPrefix + e))))
         case Success(reply) =>
           var history := prior + ExchangePair(request.userMessage, reply);
           && service.sessions == old(service.sessions)[sid := history]
           && r == Success(AssistantResponse(request.userMessage, reply, DefaultSuggestions, sid, history))
  {
    ghost var known := service.IsKnown(request.sessionId);
    ghost var before := service.sessions;
    var sessionId := service.GetOrCreateSession(request.sessionId);
    ghost var prior := if known then before[request.sessionId] else [];
    assert service.sessions == before[sessionId := prior];
    var ai := GetAiResponse(request.userMessage, Some(request.conversationHistory), openAi);
    if ai.Failure? {
      r := Failure(HttpError(500, ExceptionText(ai.error)));
      return;
    }
    var suggestions := service.GetTaskSuggestions();
    service.UpdateSession(sessionId, request.userMessage, ai.value);
    var history := service.GetSessionMessages(sessionId);
    assert history == prior + ExchangePair(request.userMessage, ai.value);
    r := Success(AssistantResponse(request.userMessage, ai.value, suggestions, sessionId, history));
  }
}
