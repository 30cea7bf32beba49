/** The JSON shapes exchanged between the browser client and the server
    (the request and response models of the task-assistant endpoint). */
module Protocol {
  import opened Wrappers

  /** One conversation entry as a JSON object: `role` and `content` are keys
      that may be missing (the server reads them with `dict.get`). The
      `timestamp` key the server also stores is not modelled. */
  datatype Entry = Entry(role: Option<string>, content: Option<string>)

  /** An entry with both keys present. */
  function Turn(role: string, content: string): Entry {
    Entry(Some(role), Some(content))
  }

  /** Body of `POST /task/assistant` after defaults are applied. */
  datatype AssistantRequest = AssistantRequest(
    userMessage: string,
    context: string,
    sessionId: string,
    conversationHistory: seq<Entry>)

  /** A request that carries only `user_message`: every other field takes its
      declared default. */
  function RequestWithDefaults(userMessage: string): (r: AssistantRequest)
    ensures r.userMessage == userMessage
    ensures r.context == "" && r.sessionId == "" && r.conversationHistory == []
  {
    AssistantRequest(userMessage, "", "", [])
  }

  /** A successful reply of `POST /task/assistant` (the `timestamp` field,
      read from the clock, is not modelled). */
  datatype AssistantResponse = AssistantResponse(
    userMessage: string,
    aiResponse: string,
    taskSuggestions: seq<string>,
    sessionId: string,
    conversationHistory: seq<Entry>)

  /** An HTTP error raised by the server: status code and `detail`. */
  datatype HttpError = HttpError(status: nat, detail: string)
}
