# Onboarding assistant backend — Dafny model

The backend lets an embedded web widget ask "what can I do on this page?" and
get an answer from a hosted assistant, which keeps each conversation in a
remote *thread*. This project models the decisions the backend makes around
the remote calls. The remote backend is an oracle: one value fixes its answer
to every call.

- `OpenAIService` (openai_service.dfy) is the conversation driver.
  - It resolves the thread. A null, empty or wrongly prefixed id gives a new thread. An id starting with `thread_` is reused.
  - It posts the raw query and starts a run.
  - It polls the run status up to 30 times (`WaitForRunCompletion`, a loop proved against `WaitResult`).
  - It maps an unfinished run to one of four fixed messages. The rate-limit check comes first.
  - It picks the reply: the first assistant message whose first content block has `text.value` (`GetLatestAssistantMessage`, a loop proved against `ReplyText`).
  - A throw before the run settles lands in the top-level catch. That returns the generic apology with the caller's own thread id.
  - Two later throws are caught locally. A failed error-code fetch counts as "not rate-limited". A failed message read gives the generic apology text with the resolved thread id.
  - `ProcessQuery` records every remote call it makes as a `RemoteCall` trace. The lemmas about `QueryOutcome` state which calls are made and in what order.
- `RouteContexts` (route_contexts.dfy) is the route-context table.
  - `RouteContextService` is a class whose `routeContexts` map is filled once, when the service is constructed, by a loop over the parsed files of the data directory.
  - Lookups trim every trailing `/` and then need an exact key match. A miss gives the minimal context.
- `AssistantController` (assistant_controller.dfy) is the HTTP boundary.
  - `Query` and `GetContext` reject empty input before any lookup or remote call.
  - Otherwise they pass the input on unchanged.
- `Models` and `Wrappers` hold the request, response and context records, and `Option` for the nullable fields.

## What the code does and does not do

- The code does not parse action markers. `Actions` is always an empty list.
- The posted message is the raw query. It does not mention the route.
- The last-error code is checked for every unfinished status, not just `failed`. A rate-limited run therefore gets the quota message even when its status is `timeout` or `cancelled`.
- After the poll loop ends on an unfinished status, the timeout included, the code fetches the same run once more to read its error code. So a run that exhausts the 30-poll budget costs 31 fetches of that run: 30 polls, then one error-code fetch.
- An assistant message without a text value is skipped. It is not taken as the reply.

## Model

| member | source | states |
|---|---|---|
| `OpenAIService.ResolveThread` | backend/Services/OpenAIService.cs:63-82 | An existing thread is reused exactly when the id is non-null and starts with `thread_`, and then verbatim. Every other id, the empty one included, means a new thread. |
| `OpenAIService.PollFrom` | backend/Services/OpenAIService.cs:347-430 | The poll loop makes between 1 and 30 fetches in total. Once it has run, its status is never `queued` or `in_progress`. |
| `OpenAIService.WaitForRunCompletion` | backend/Services/OpenAIService.cs:343-437 | The do-while fetch loop returns the outcome and fetch count of `WaitResult`. That is a thrown fetch, the first settled status, or `timeout`. |
| `OpenAIService.PollSettlesAt` | backend/Services/OpenAIService.cs:391-430 | If fetches before `i` are all pending and fetch `i` is not, the loop ends at fetch `i` and makes `i + 1` fetches. A failed fetch throws. A null status becomes `unknown`. Otherwise it returns the status reported. |
| `OpenAIService.PollTimesOut` | backend/Services/OpenAIService.cs:420-427 | If every fetch up to the 30th is pending, the loop returns `timeout` after exactly 30 fetches. |
| `OpenAIService.GetLatestAssistantMessage` | backend/Services/OpenAIService.cs:439-507 | The foreach scan with early return gives `ReplyText`. |
| `OpenAIService.ScanDecidedAt` | backend/Services/OpenAIService.cs:478-497 | Non-assistant messages and assistant messages without `text.value` are passed over. The first message not passed over decides: its text (null read as ""), or a throw if it cannot be read. |
| `OpenAIService.ScanFindsNothing` | backend/Services/OpenAIService.cs:478-500 | The scan finds nothing, and the "couldn't generate" fallback is used, exactly when every message is passed over. |
| `OpenAIService.ClassifyFailure` | backend/Services/OpenAIService.cs:138-155 | Rate limiting gives the quota message whatever the status. Otherwise `failed` gives the configuration message and `timeout` the "took too long" message. Any other status gives the retry message. Each case is stated in both directions. |
| `OpenAIService.FailureMessagesDistinct` | backend/Services/OpenAIService.cs:138-155 | The four failure messages tell the kinds apart. None of them is the generic apology. |
| `OpenAIService.ProcessQuery` | backend/Services/OpenAIService.cs:56-189 | The driver's response and call trace are those of `QueryOutcome`. |
| `OpenAIService.ThreadCalls` | backend/Services/OpenAIService.cs:63-95 | A new thread is created by the first call and never again. A reused id means no creation. Every later call uses the resolved thread. |
| `OpenAIService.EmptyThreadIdCreatesThread` | backend/Services/OpenAIService.cs:66-70 | A null or empty id creates exactly one thread. The response carries the created id even without the prefix, or "" on the catch path. |
| `OpenAIService.MalformedThreadIdReplaced` | backend/Services/OpenAIService.cs:71-77 | A non-empty id without the prefix gets a fresh thread, and every later call runs on the created thread. So when the created id differs from the caller's id, the caller's id is never used in a call. The catch path echoes the caller's id. |
| `OpenAIService.PrefixedThreadIdReused` | backend/Services/OpenAIService.cs:78-82 | A prefixed id is reused verbatim. No thread is created. The response carries that id on every path. |
| `OpenAIService.PostsRawQuery` | backend/Services/OpenAIService.cs:86-87 | The only message posted is the raw query, on the resolved thread. |
| `OpenAIService.ResponseThread` | backend/Services/OpenAIService.cs:157-187 | `Actions` is always empty. The catch path returns the generic apology and the caller's id, or "" if it was null. Every other path returns the resolved thread id. |
| `OpenAIService.PollBudget` | backend/Services/OpenAIService.cs:347-349 | A query makes at most 30 poll fetches of the run status. Once the run is created, that is exactly the loop's fetch count. The one error-code fetch of the same run after an unfinished run is not a poll and is not counted. |
| `OpenAIService.UnfinishedRunClassified` | backend/Services/OpenAIService.cs:98-162 | A settled run that did not complete gets one of the four fixed messages, chosen in rate-limit-first order. The last call is the error-code check. |
| `OpenAIService.CompletedRunReplies` | backend/Services/OpenAIService.cs:165-174 | A completed run answers with the extracted reply. It is read by one final list-messages call. |
| `OpenAIService.StuckRunTimesOut` | backend/Services/OpenAIService.cs:420-425 | If the run is pending at all 30 polls, exactly 30 polls are made. They are followed by one error-code fetch of the same run, which is the last call. The message is "took too long", or the quota message if the run is rate-limited. |
| `RouteContexts.NormalizeRoute` | backend/Services/RouteContextService.cs:85-89 | The result is the longest prefix of the route that does not end in `/`. Everything cut off is `/`. |
| `RouteContexts.NormalizeRouteIdempotent` | backend/Services/RouteContextService.cs:85-89 | Normalising twice is normalising once. |
| `RouteContexts.NormalizeRouteIgnoresSlashes` | backend/Services/RouteContextService.cs:85-89 | Appending any run of `/` to a route leaves its normal form unchanged. |
| `RouteContexts.InsertFilesKeys` | backend/Services/RouteContextService.cs:37-52 | After loading, a key is present exactly when some record with that non-empty route was parsed, or it was present before. A file that fails to parse stops nothing. |
| `RouteContexts.LastRecordWins` | backend/Services/RouteContextService.cs:43-46 | The last parsed record for a route is the one stored. |
| `RouteContexts.KeyKept` | backend/Services/RouteContextService.cs:37-52 | A key that no file stores keeps its old presence and value. |
| `RouteContexts.InsertFilesWellKeyed` | backend/Services/RouteContextService.cs:43-45 | Loading keeps every key non-empty and equal to the route of its context. |
| `RouteContexts.RouteContextService.constructor` | backend/Services/RouteContextService.cs:16-24 | The table starts empty and is then loaded. A missing directory leaves it empty. |
| `RouteContexts.RouteContextService.LoadRouteContexts` | backend/Services/RouteContextService.cs:26-60 | The in-place loop inserts each usable record under its own route, in file order. |
| `RouteContexts.RouteContextService.GetContextForRoute` | backend/Services/RouteContextService.cs:62-83 | A stored key equal to the normalised route returns its context. Otherwise the result is the minimal context: the normalised route, "Using OpenAI Retrieval for context.", empty lists and null dependencies. The lookup reads the table and never changes it. |
| `RouteContexts.ContextCarriesNormalizedRoute` | backend/Services/RouteContextService.cs:62-83 | For a table built by loading, the returned context's route is the normalised route. |
| `RouteContexts.LookupIgnoresTrailingSlashes` | backend/Services/RouteContextService.cs:62-71 | `r`, `r + "/"` and `r + "//"` resolve to the same context. |
| `RouteContexts.SlashKeyUnreachable` | backend/Services/RouteContextService.cs:45-68 | A key ending in `/` never equals a normalised route. So a record stored under such a key is never returned by the exact-match lookup. |
| `AssistantController.Query` | backend/Controllers/AssistantController.cs:31-59 | An empty query gets BadRequest "Query cannot be empty" with no remote call. Any other query returns the driver's response as-is in Ok, made from the request's query and thread id. |
| `AssistantController.GetContext` | backend/Controllers/AssistantController.cs:61-71 | An empty route gets BadRequest "Route cannot be empty". Any other route gets exactly the lookup's context. |
| `AssistantController.GetContextIgnoresTrailingSlash` | backend/Controllers/AssistantController.cs:61-71 | `GET api/context` answers `r` and `r + "/"` alike. |
| `AssistantController.SlashOnlyRouteGetsMinimalContext` | backend/Controllers/AssistantController.cs:64-70 | A non-empty route made only of `/` passes the guard. It normalises to "", which is never stored, so it gets the minimal context for "". |

## Left out

- HTTP transport is not modelled: request building, the Bearer and `OpenAI-Beta: assistants=v2` headers, JSON (de)serialisation, logging and the one-second `Task.Delay` between polls. Each remote call is one oracle answer in `Backend`. The JSON shapes that make the code throw are folded into oracle variants: `FetchFailed`, `Unreadable`, `NoBlock`, `Malformed`, `ListFailed` and `ProbeFailed`.
- The poll oracle answers every fetch (`nat -> PollResult`). The model counts fetches but has no clock.
- OpenAIService.ResolveThread: the `thread_` prefix test is modelled as an ordinal prefix check. The source's `StartsWith(string)` compares in the current culture, which skips ignorable code points. So an id such as a soft hyphen followed by `thread_x` passes the source's test and is reused, while the model creates a new thread. The two agree under invariant globalisation.
- OpenAIService.ProcessQuery: the route context parameter is accepted but not used. The source only logs its route.
- AssistantController.Query: the context lookup before delegation is modelled, but the driver ignores the context, so no contract can observe it. A rejected query makes no lookup and no remote call; the contract states only the second.
- Null `Query` and `Route` fields and a null `route` parameter are not modelled. They are declared non-nullable strings, so the model checks only for empty strings.
- RouteContexts: reading the data directory and deserialising each file are oracle inputs (`FileRead`). A missing directory and a listing failure caught by the outer handler are both `None`. A context whose JSON route is null is treated as having an empty route; both are skipped.
- backend/Services/EmbeddingService.cs is not part of this model. Its cosine similarity and 0.7 threshold use floating point, its embeddings come from a remote SDK, and it is not registered with the application.
- backend/Program.cs is not part of this model: dependency injection, CORS and Swagger wiring, and the startup checks for missing configuration.
- The frontend and demo app (bundler configuration and UI registration) are not part of this model.
- Action-marker parsing and route-enriched messages do not exist in the code, so they are not modelled.
- Concurrent queries against one thread are not modelled. The code does nothing to coordinate them.
