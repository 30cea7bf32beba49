# AI Task Assistant: chat session manager, modelled in Dafny

This project models the core of the AI Task Assistant. The browser client keeps a chat with a
task-assistance server. The server keeps one in-memory table of chat sessions per route module.

- **Client session manager** (`frontend.dfy`, class `Frontend.TaskAssistant`). This is the hook
  state of the React component: the display log `chatMessages`, the server-owned
  `conversationHistory`, `currentSessionId`, the chat box `newMessage`, the typing indicator
  `isTyping`, and the form mode's `loading`/`error`/`result`. Each asynchronous handler is split
  in two. A `Begin…` method runs the synchronous part: the guard, the optimistic append, the
  indicator, and the request it would send. A `Complete…` method applies how the HTTP call
  settled, given as an abstract `CallOutcome`: `Resolved(body?)`, or `Rejected(detail?, message)`.
  The suggestion-bubble text and the error-text fallback are pure functions.
- **Server session table** (`chat_service.dfy`, class `ChatSessions.ChatService`). This is a map
  from session id to message list, plus the counter that makes fresh ids `session_<n>`. The
  class keeps two invariants. First, every key is `session_k` with `1 <= k <= counter`, so a new
  id never overwrites a session. Second, every stored list is made of user/assistant pairs. The
  module also holds the "last five entries" context builder and the AI-reply wrapper.
- **`POST /task/assistant`** (`task_routes.dfy`, `TaskRoutes.TaskAssistant`). This is the
  straight-line handler: get-or-create, AI reply, record the pair, read the history back. Its
  contract fixes the session id, history and error the client receives.
- `text.dfy` has the string helpers that carry proofs: decimal rendering with its inverse,
  join/split round trips, and JavaScript's `trim`. `protocol.dfy` has the request and response
  shapes. `scenarios.dfy` runs whole exchanges on fresh objects, including one across both
  server tables and the client.

The chat-completion call is a parameter `openAi: (context, userMessage) -> Result<reply, reason>`.
The HTTP outcomes the client sees are parameters too.

Three behaviours of the code that are easy to misread, and that the model follows:
- A failed send appends a message with role `assistant`. There is no distinct error role
  (`Frontend/src/components/TaskAssistant.js:114`).
- When the new-session call fails, "new chat" keeps the old session id. It does not clear it
  (`Frontend/src/components/TaskAssistant.js:59-61`).
- The server builds the stored history itself. The history the client sends is used only for
  the AI context (`backend/api/task_routes.py:23-26`).

`TaskRoutes.ExceptionText` renders `str(e)` of an HTTP exception as `"<status>: <detail>"`. This
is the web framework's rendering, not code of this repository. So a failed AI call reaches the
client with the detail `"500: Error getting AI response: <reason>"`.

## Model

| member | source | states |
|---|---|---|
| `Text.NatToString` | backend/services/chat_service.py:31 | Python `str(n)` on a counter: at least one character, all decimal digits, a single digit exactly when `n < 10` |
| `Text.DigitsValueOfNatToString` | backend/services/chat_service.py:31 | reading back the decimal text of `n` gives `n` |
| `Text.NatToStringInjective` | backend/services/chat_service.py:31 | distinct counters render as distinct decimal strings |
| `Text.TrimStart` | Frontend/src/components/TaskAssistant.js:77 | the result is a suffix of the input that does not start with whitespace, and everything dropped is whitespace |
| `Text.TrimEnd` | Frontend/src/components/TaskAssistant.js:77 | the result is a prefix of the input that does not end with whitespace, and everything dropped is whitespace |
| `Text.Trim` | Frontend/src/components/TaskAssistant.js:77 | definition: `message.trim()`, the leading whitespace stripped and then the trailing whitespace |
| `Text.TrimEmptyIffBlank` | Frontend/src/components/TaskAssistant.js:77 | `message.trim()` is empty exactly when the message is empty or all whitespace |
| `Text.Join` | backend/services/chat_service.py:51-54 | definition: the parts with the separator between consecutive ones, `""` for no parts, as Python `str.join` and JavaScript `Array.prototype.join` (also used at Frontend/src/components/TaskAssistant.js:106-108) |
| `Text.SplitJoin` | Frontend/src/components/TaskAssistant.js:106-108 | text joined with `\n` splits back into the same parts when no part holds a line break |
| `Text.JoinSplit` | backend/services/chat_service.py:51-54 | a stated property of `Join` used by nothing else (the source never splits): the pieces of a split, joined with the separator, give the original text back, the converse of `SplitJoin` |
| `ChatSessions.SessionName` | backend/services/chat_service.py:31 | the id `f"session_{n}"`: the prefix `session_` followed by at least one more character |
| `ChatSessions.SessionNameInjective` | backend/services/chat_service.py:31 | `session_a == session_b` only when `a == b` |
| `ChatSessions.FreshIdIsAbsent` | backend/services/chat_service.py:29-32 | when every key is `session_k` with `k <= counter`, the id `session_{counter+1}` is not yet in the table |
| `ChatSessions.EmptyIdIsAbsent` | backend/services/chat_service.py:29 | a stated property, not used in the other proofs: under the key invariant `""` is never a key, so the `not session_id` test adds nothing to `session_id not in chat_sessions` |
| `ChatSessions.KeysGeneratedGrow` | backend/services/chat_service.py:30-36 | inserting `session_{counter+1}` and advancing the counter keeps every key generated |
| `ChatSessions.ExchangePair` | backend/services/chat_service.py:89-98 | definition: the two entries `update_session` appends, `{role: user, content: user_message}` then `{role: assistant, content: ai_response}` |
| `ChatSessions.ExchangeLogExtend` | backend/services/chat_service.py:86-98 | appending a user/assistant pair keeps a message list made of such pairs |
| `ChatSessions.ChatService.constructor` | backend/services/chat_service.py:17-20 | the table starts empty with counter 0, and the invariants hold |
| `ChatSessions.ChatService.IsKnown` | backend/services/chat_service.py:29 | definition: the negation of the guard, a non-empty id that is a key of the table |
| `ChatSessions.ChatService.GetOrCreateSession` | backend/services/chat_service.py:27-40 | a known id is returned with nothing changed; otherwise the counter goes up by one, `session_<counter>` is returned, it was absent, and it is added with no messages; the id returned is always a key; the invariants are kept |
| `ChatSessions.ChatService.UpdateSession` | backend/services/chat_service.py:86-98 | a known session gets exactly the user message and then the reply appended, and every other session is untouched; an unknown id changes nothing |
| `ChatSessions.ChatService.GetSessionMessages` | backend/services/chat_service.py:108-110 | the stored list for a known id, `[]` otherwise, with no state change |
| `ChatSessions.ChatService.GetTaskSuggestions` | backend/services/chat_service.py:100-106 | always the same three suggestions, in order |
| `ChatSessions.LastN` | backend/services/chat_service.py:53 | the last `min(n, length)` elements, in order |
| `ChatSessions.RenderEntry` | backend/services/chat_service.py:52 | definition: `User: c` when the role is `user`, `Assistant: c` otherwise (also when the role is missing), with `c` the content or `""` when it is missing |
| `ChatSessions.RenderAll` | backend/services/chat_service.py:51-53 | one rendered line per entry, same length and order |
| `ChatSessions.ConversationContext` | backend/services/chat_service.py:49-54 | an absent or empty history gives `""`, and a non-empty one a non-empty context; what it holds is stated by the two lemmas below |
| `ChatSessions.ContextLines` | backend/services/chat_service.py:49-54 | when none of the last `min(5, n)` entries renders with a line break, the context splits into exactly one line per such entry, in order, each `User: c` or `Assistant: c`; older entries may hold anything |
| `ChatSessions.ContextIgnoresOlder` | backend/services/chat_service.py:53 | entries before the last five never change the context |
| `ChatSessions.GetAiResponse` | backend/services/chat_service.py:42-84 | the completion is asked with the context built from the history; a failure becomes HTTP 500 with detail `Error getting AI response: <reason>` |
| `TaskRoutes.TaskAssistant` | backend/api/task_routes.py:15-47 | the session id is the request's when known, else the fresh `session_{counter+1}`; on success the history is the session's prior messages plus the new pair, the suggestions are the fixed three and the message is echoed back; on failure the messages are unchanged, but a new empty session may remain, and the error is 500 with `str(e)` |
| `TaskRoutes.ExceptionText` | backend/api/task_routes.py:47 | definition: `str(e)` of an HTTP exception as the web framework renders it, the status code, `: `, then the detail |
| `Protocol.RequestWithDefaults` | backend/models/request_models.py:8-13 | a request with only `user_message` has an empty session id, context and history |
| `Frontend.OrElse` | Frontend/src/components/TaskAssistant.js:114 | the JavaScript or-operator on an optional string: an absent or empty detail gives the fallback |
| `Frontend.ChatErrorText` | Frontend/src/components/TaskAssistant.js:114 | `❌ Error: ` followed by the detail, or by the error message when there is no detail |
| `Frontend.FormErrorText` | Frontend/src/components/TaskAssistant.js:145 | the detail when present and non-empty, else the fixed fallback text; never empty |
| `Frontend.Bullets` | Frontend/src/components/TaskAssistant.js:106-108 | one `• s` line per suggestion, in order |
| `Frontend.SuggestionsText` | Frontend/src/components/TaskAssistant.js:106-109 | definition: `💡 Suggested Actions:`, a line break, then the bullet lines joined with line breaks |
| `Frontend.SuggestionsTextLines` | Frontend/src/components/TaskAssistant.js:105-109 | when no suggestion holds a line break, the suggestions bubble reads back as the header line followed by the bullets in the given order |
| `Frontend.HasSuggestions` | Frontend/src/components/TaskAssistant.js:105 | definition: the reply's `task_suggestions` is present and non-empty |
| `Frontend.ReplyMessages` | Frontend/src/components/TaskAssistant.js:96-110 | a reply appends one assistant message with `ai_response`, plus a second, separate one with the suggestions exactly when the list is non-empty |
| `Frontend.ClientOutcome` | backend/models/response_models.py:7-14 | a server success reaches the client as a body with every field present; a server error reaches it as a rejection carrying the detail |
| `Frontend.TaskAssistant.constructor` | Frontend/src/components/TaskAssistant.js:33-44 | the initial hook state: empty log, history and session id, indicator off, nothing loading |
| `Frontend.TaskAssistant.HandleInputChange` | Frontend/src/components/TaskAssistant.js:46-51 | only the `combinedInput` field, which the submit reads, takes the new value |
| `Frontend.TaskAssistant.EditNewMessage` | Frontend/src/components/TaskAssistant.js:316 | the chat box holds what was typed |
| `Frontend.TaskAssistant.InitializeChat` | Frontend/src/components/TaskAssistant.js:54-62 | a created session's id is adopted; a failure leaves the id as it was |
| `Frontend.TaskAssistant.AddMessageToChat` | Frontend/src/components/TaskAssistant.js:65-73 | exactly one message is appended, and every earlier message stays in place and in order |
| `Frontend.TaskAssistant.BeginSendChatMessage` | Frontend/src/components/TaskAssistant.js:76-91 | a blank message changes nothing and sends nothing; otherwise one user message is appended, the box is cleared, the indicator goes on, and the request carries the current session id and history unmodified |
| `Frontend.TaskAssistant.CompleteSendChatMessage` | Frontend/src/components/TaskAssistant.js:93-115 | the indicator is off on every path; a reply appends its messages, replaces the history (`[]` if absent) and adopts the session id; an empty body changes nothing else; a failure appends one assistant error message and keeps history and id |
| `Frontend.TaskAssistant.StartNewChat` | Frontend/src/components/TaskAssistant.js:119-123 | log and history are emptied; the id changes only if the new session was created |
| `Frontend.TaskAssistant.BeginSubmit` | Frontend/src/components/TaskAssistant.js:130-141 | loading is on, the error and result are cleared, and the request carries only the form text |
| `Frontend.TaskAssistant.CompleteSubmit` | Frontend/src/components/TaskAssistant.js:142-148 | loading is off on every path; a response body becomes the result; a failure sets the error text and leaves the result alone |
| `Scenarios.FirstTurnMirrorsServer` | Frontend/src/components/TaskAssistant.js:87-102 | on fresh tables, after the first turn, the client's history equals what the task route's table stores under the client's session id, even though the id came from the other table; it is the new pair on success and empty otherwise |
| `Scenarios.OmittedIdsGiveDistinctSessions` | backend/models/request_models.py:12 | two requests that omit the session id get two different new sessions |
| `Scenarios.HistoryIsReplaced` | Frontend/src/components/TaskAssistant.js:101 | replies with histories H1 then H2 leave H2, and the second request sends H1 |
| `Scenarios.PlanMyDay` | Frontend/src/components/TaskAssistant.js:94-110 | one reply with one suggestion gives three bubbles (user, reply, suggestions); the history and session id are taken verbatim; the indicator is off |
| `Scenarios.RateLimited` | Frontend/src/components/TaskAssistant.js:112-115 | a rejection with detail `rate limited` appends one assistant error bubble and keeps history and session id |
| `Scenarios.FailedSubmit` | Frontend/src/components/TaskAssistant.js:130-149 | a failed submit ends with loading off, no result, and the detail or the fallback as the error |
| `Scenarios.FormSubmitOnFreshTable` | backend/api/task_routes.py:20 | a form submit on a fresh task table creates `session_1` and stores the form's exchange there |
| `Scenarios.SeparateTablesMixConversations` | backend/api/chat_routes.py:14 | with the two route modules' separate tables, a chat client's first turn lands in the session a form submit created: its history has four entries, starting with the form's exchange |
| `Scenarios.SharedTableKeepsConversationsApart` | backend/api/task_routes.py:13 | with one table behind both routes, whatever it holds, a client's first turn gets back only that turn's exchange, or nothing when the AI call fails |

## Left out

- Rendering, the typing animation and the chat/form mode toggle (`Frontend/src/components/TaskAssistant.js:153-459`) are presentation only. The only JSX handler modelled is the chat box edit.
- `Frontend/src/components/EmotionalTaskAnalysis.js` is not part of this model. Its submit handler repeats the form-mode submit, and the app never renders it.
- Message ids (`Date.now()`), locale time strings, `created_at`/`last_activity`, the response `timestamp`, and the per-message `timestamp` that `update_session` stores (`backend/services/chat_service.py:92, 97`) are omitted, because they read the clock. The client receives that per-message key with the history and sends it back unchanged; the model's entries carry only `role` and `content`. Message ids are not unique within one tick anyway.
- The real HTTP calls and the OpenAI call are parameters. The system prompt's fixed wording, the model name and the token settings are not modelled; the completion is given the context and the user message, from which that prompt is built.
- API-key loading and the missing-key check (`backend/services/chat_service.py:23-25, 45-46`) are left out. A missing key is one more way for the abstract AI call to fail.
- `backend/main.py` (app, CORS, server), `backend/api/health_routes.py`, `backend/api/chat_routes.py` and `backend/utils/config.py` are framework wiring. New-session is `GetOrCreateSession("")` on a second, separate table, as `Scenarios.FirstTurnMirrorsServer` builds it. Deleting a session is a stub that changes nothing.
- Overlapping sends and React batching are left out. Begin and complete steps run in sequence. The send handler itself does not check `isTyping`; only the disabled Send button does.
- JSON values of the wrong type are not modelled. Examples: a `detail` that is a list (framework validation errors), or a non-string suggestion. `detail`, `role` and `content` are optional strings.
- Strings are sequences of Unicode scalar values, not UTF-16 code units. Trimming uses ECMAScript's whitespace and line-terminator set.
- Frontend.ClientOutcome: the HTTP client's generic rejection message is written as `Request failed with status code <n>`; its contract states only the detail, since the client shows the message only when there is no detail.

## Findings

| source | as written | input that shows it | evidently intended | confidence | as-written member | corrected member |
|---|---|---|---|---|---|---|
| backend/api/task_routes.py:13 | the new-session route (`backend/api/chat_routes.py:14`) and the task route each build their own `ChatService`, so ids come from two independent counters | one tab: it mounts and is given `session_1` by the new-session table; the user switches to form mode and submits (no session id, so the task table creates its own `session_1` for the form's exchange); back in chat mode the first turn carries `session_1`, is appended to the form's session and gets back four history entries. The two tables are independent, so the model runs the form submit and the mount in either order | one table shared by both routes, so a newly issued id is fresh in the table that stores the conversation | not executed | `Scenarios.SeparateTablesMixConversations` | `Scenarios.SharedTableKeepsConversationsApart` |
