# Task dashboard client — a Dafny model

This project models the sequential logic of a task-management web client
that talks to a REST backend: the HTTP gateway that attaches the bearer
token and sorts responses into data, error or exception; the session
manager that keeps the current user and the `token`/`user` storage entries;
the task-list hook and its list updates; the task form's validation chain;
the task card's id label and edit buffers; the chat screen's submit/reply
state machine; and the stand-alone login screen with its session restore.

Everything is a pure function over immutable values. The backend, the
browser and the user appear as inputs:

- a reply that goes through the gateway or the chat page's `fetch` is an
  `Api.FetchResult<T>`: either a network failure or
  a status code with a body that does not decode, decodes to `null`, or
  decodes to a value;
- browser storage is a `map<string, string>`, and `hasWindow` says whether
  it exists;
- JSON encoding and parsing of the stored user are function parameters;
- the stand-alone login screen's reply is a `LegacyApp.FormReply`: a failed
  or unreadable reply, or the fields the handler reads;
- `window.confirm` is a boolean.

JavaScript string semantics are written out in `JsText`. `trim` strips the
full ECMAScript whitespace set. Only `""` is a falsy string. `a || b` falls
through on `""`, `undefined` and `null`. `.length` counts UTF-16 code
units. `String(n)` and `padStart` are modelled as well.

Modules follow the source files: `Api` (`src/lib/api.ts`), `Auth`
(`src/lib/auth.ts`), `UseTasks` (`src/hooks/use-tasks.ts`, plus the
dashboard's create call), `TaskForm`, `TaskItem`, `ChatPage`, `LegacyApp`
(`src/App.tsx`), and `Types` for the `Task` record.

Where the documented contract and the code differ, the model follows the code:

- The gateway does not always return a union. A network failure, or a 2xx
  response whose body does not decode, is thrown. So is an error status
  whose body is `null`: reading `detail` from it raises a `TypeError`,
  which is reported as the network error.
- `isAuthenticated` needs a non-empty token and a browser window, not just
  some stored token.
- A whitespace-only title is rejected, even though its length is between 1
  and 200.
- The description message says "less than 1000", yet exactly 1000 code
  units are accepted.

## Model

| member | source | states |
|---|---|---|
| JsText.Trim | src/components/tasks/task-form.tsx:24 | `trim()` yields "" exactly when every character is whitespace; otherwise the result starts and ends with a non-whitespace character; it is the slice of the input left after stripping a whitespace run at each end |
| JsText.Utf16Length | src/components/tasks/task-form.tsx:29 | `.length` counts UTF-16 code units: between the number of characters and twice that, zero only for "", and one character contributes its own code units (two outside the Basic Multilingual Plane) |
| JsText.Utf16Additive | src/components/tasks/task-form.tsx:29 | `.length` of a concatenation is the sum of the parts' lengths, which with the one-character case determines it |
| JsText.DecimalString | src/components/tasks/task-item.tsx:21 | `String(id)` is a non-empty digit string with no leading zero unless the id is 0 |
| JsText.ParseDecimalString | src/components/tasks/task-item.tsx:21 | reading the digits of `String(id)` back gives the id |
| JsText.ParseLeadingZeros | src/components/tasks/task-item.tsx:21 | zeros put in front of a digit string do not change its value |
| JsText.PadStart | src/components/tasks/task-item.tsx:21 | with a filler of one code unit, `padStart` keeps the string as a suffix, fills the front with the filler only, and adds exactly the missing number of code units |
| Api.BaseUrl | src/lib/api.ts:4 | an unset or empty configured URL falls back to `http://localhost:8000` |
| Api.StoredToken | src/lib/api.ts:26 | the gateway sees the `token` entry only when a window exists |
| Api.BuildHeaders | src/lib/api.ts:28-35 | `Content-Type` defaults to `application/json` but a caller's value wins; all caller headers survive; `Authorization: Bearer <token>` is added iff the token is non-empty and then overrides the caller's |
| Api.Get | src/lib/api.ts:74-76 | `get` issues GET with no body |
| Api.Post | src/lib/api.ts:78-83 | `post` issues POST carrying the data |
| Api.Put | src/lib/api.ts:85-90 | `put` issues PUT carrying the data |
| Api.Patch | src/lib/api.ts:92-97 | `patch` issues PATCH carrying the data |
| Api.Delete | src/lib/api.ts:99-101 | `delete` issues DELETE with no body |
| Api.VerbHelpers | src/lib/api.ts:74-101 | the five helpers use five different methods, none adds headers, and exactly post/put/patch carry a body |
| Api.Prepare | src/lib/api.ts:26-45 | the URL is base followed by endpoint with nothing inserted; method and body pass through; the headers are exactly the gateway's headers for the caller's headers and the stored token, so a non-empty stored token becomes the bearer header and the `Content-Type` default and the caller's other headers are kept either way |
| Api.ErrorMessage | src/lib/api.ts:52 | the error message is `detail`, else `message`, else `HTTP <status>`, and is never empty |
| Api.Classify | src/lib/api.ts:49-71 | `{data}` iff 2xx with a body that decodes, the data being `null` exactly for a `null` body; `{error}` iff non-2xx with a body that is not `null`, with statusCode = status, details = the body or `{}`, and the chosen message; every other case is thrown with status 500, "Network error - check connection" exactly for a network failure or a `null` error body, and "Unexpected error occurred" exactly for an undecodable 2xx body |
| Api.NullErrorBody | src/lib/api.ts:50-52 | an error status whose body is `null` is thrown as the network error, unlike an undecodable one, which is returned as `{error}` |
| Api.ClassifyIntended | src/lib/api.ts:58-60 | the gateway as intended: a 204 reply is `{data: null}`, every other reply is classified as before |
| Api.UndecodableErrorBody | src/lib/api.ts:50-55 | a non-2xx response with an undecodable body gives details `{}` and message `HTTP <status>`, whose digits read back as the status |
| TaskForm.Initial | src/components/tasks/task-form.tsx:17-19 | the form opens with the task's title and description, or "" when there is no task or no description, and no error |
| TaskForm.Validate | src/components/tasks/task-form.tsx:24-39 | accepted iff the title is not blank, the title has at most 200 code units and the description at most 1000; otherwise the first failing check (required, title length, description length) names the message; an accepted payload has the untrimmed title and an absent description exactly when it was "" |
| TaskForm.ShortTitleBranchUnreachable | src/components/tasks/task-form.tsx:24-32 | a title that passes the blank check has length at least 1, so the `< 1` test never fires |
| TaskForm.DescriptionBoundaryAccepted | src/components/tasks/task-form.tsx:34-37 | a description of exactly 1000 code units is accepted |
| TaskForm.Submit | src/components/tasks/task-form.tsx:21-41 | `onSubmit` is called iff the input is acceptable, with the untrimmed title and a description that is absent exactly when it was "", and the error is then cleared; otherwise the message of the first failing check is shown; the buffers never change |
| UseTasks.Replaced | src/hooks/use-tasks.ts:87 | every task with the id becomes the server's task; length and every other task are kept |
| UseTasks.MergedCompletion | src/hooks/use-tasks.ts:107-111 | matching tasks take `completed` and `completed_at` from the reply; no other field changes, and non-matching tasks are untouched |
| UseTasks.Removed | src/hooks/use-tasks.ts:130 | the kept tasks are exactly those of the old list whose id differs; with no task of that id the list is unchanged |
| UseTasks.RemovedPreservesOrder | src/hooks/use-tasks.ts:130 | filtering distributes over concatenation, so the relative order of kept tasks is preserved |
| UseTasks.RemovedIdempotent | src/hooks/use-tasks.ts:130 | deleting an id twice equals deleting it once |
| UseTasks.ReplacedIdempotent | src/hooks/use-tasks.ts:87 | applying the same update twice equals applying it once |
| UseTasks.TaskPath | src/hooks/use-tasks.ts:79 | `/tasks/<id>` starts with `/tasks/` and its digits read back as the id |
| UseTasks.LoadCall | src/hooks/use-tasks.ts:40 | loading issues GET `/tasks` with no body and no caller headers |
| UseTasks.CreateCall | src/hooks/use-tasks.ts:59 | creating issues POST `/tasks` with the task data and no caller headers |
| UseTasks.UpdateCall | src/hooks/use-tasks.ts:79 | updating issues PUT `/tasks/<id>` with the task data and no caller headers |
| UseTasks.DeleteCall | src/hooks/use-tasks.ts:123 | deleting issues DELETE `/tasks/<id>` with no body and no caller headers |
| UseTasks.ToggleCall | src/hooks/use-tasks.ts:99 | toggling issues PATCH `/tasks/<id>/complete` with body exactly `{completed}` and no caller headers |
| UseTasks.DashboardCreateBody | src/app/dashboard/page.tsx:17-20 | the create body holds exactly the form's title, its description when present, and `completed: false`; an absent description is not sent |
| UseTasks.Begin | src/hooks/use-tasks.ts:56-59 | a mutation clears the error before its request and leaves list and loading flag alone |
| UseTasks.BeginLoad | src/hooks/use-tasks.ts:36-40 | a load sets loading and clears the error before its request |
| UseTasks.Mount | src/hooks/use-tasks.ts:27-34 | the hook starts empty, loading, without error, and loads at once; the error banner shows iff that load fails, and then the list stays empty |
| UseTasks.LoadTasks | src/hooks/use-tasks.ts:36-54 | the request is GET `/tasks` and nothing is re-thrown; success sets the list to the reply's `tasks`, or [] when absent; failure keeps the list and shows the gateway's message; loading is false afterwards either way |
| UseTasks.CreateTask | src/hooks/use-tasks.ts:56-74 | the request is POST `/tasks` with the data; the server's task is appended last with earlier tasks unchanged and in order; a reply without data changes nothing; a returned or thrown error keeps the list, shows its message and is re-thrown |
| UseTasks.UpdateTask | src/hooks/use-tasks.ts:76-94 | tasks with that id become the server's task and the length is kept; no data changes nothing; errors as for create |
| UseTasks.ToggleTaskCompletion | src/hooks/use-tasks.ts:96-118 | only `completed` and `completed_at` of matching tasks change, copied from the reply; no data or an error leaves the list alone; errors as for create |
| UseTasks.DeleteTask | src/hooks/use-tasks.ts:120-136 | the request is DELETE `/tasks/<id>`; on success the list is the old one filtered by id, so exactly the tasks without that id remain, in their order and with their multiplicity; errors keep the list, show the message and are re-thrown |
| UseTasks.DeleteAbsentId | src/hooks/use-tasks.ts:130 | deleting an id that no task has leaves the list unchanged |
| UseTasks.CreateThenDelete | src/hooks/use-tasks.ts:66-67 | creating a task under a fresh id and then deleting that id gives back the original list |
| UseTasks.DeleteWithEmptySuccessBody | src/hooks/use-tasks.ts:120-136 | a 2xx delete reply with an empty body is thrown by the gateway as "Unexpected error occurred", so the task stays listed |
| UseTasks.DeleteTaskIntended | src/hooks/use-tasks.ts:120-136 | over the intended gateway a 204 delete removes the task and shows no error; any other reply is handled as written |
| UseTasks.NoContentDeleteRemoves | src/hooks/use-tasks.ts:130 | for a listed id and a 204 reply, the intended delete leaves no task with that id, while the delete as written keeps it when the empty body fails to decode |
| Auth.Rehydrate | src/lib/auth.ts:28-40 | at startup only the user is restored, and only from a non-empty `user` entry that parses; a parse failure leaves it null even when a token is stored |
| Auth.LoginCall | src/lib/auth.ts:51-54 | login posts exactly email and password to `/api/auth/login`, with no caller headers |
| Auth.SignupCall | src/lib/auth.ts:78-82 | signup posts exactly email, password and `full_name` = name to `/api/auth/signup`, with no caller headers |
| Auth.Complete | src/lib/auth.ts:56-73 | a `{data}` reply sets the user, stores `token` = access token and `user` = the encoded user, and returns both; an error, empty data or a thrown exception returns null and changes neither the user nor storage |
| Auth.Login | src/lib/auth.ts:49-74 | login issues its request and applies the reply as above |
| Auth.Signup | src/lib/auth.ts:76-102 | signup issues its request and applies the reply as above |
| Auth.Logout | src/lib/auth.ts:104-110 | logout clears the user and removes exactly the `token` and `user` entries |
| Auth.LogoutIdempotent | src/lib/auth.ts:104-110 | logging out twice equals logging out once |
| Auth.CurrentUser | src/lib/auth.ts:112-114 | `getCurrentUser` returns the in-memory user; storage plays no part |
| Auth.IsAuthenticated | src/lib/auth.ts:116-122 | authenticated iff a window exists and the stored token is non-empty |
| Auth.AuthToken | src/lib/auth.ts:124-129 | the token getter returns the same stored token the gateway attaches |
| Auth.LoginSuccessAuthenticates | src/lib/auth.ts:61-69 | after a successful login the current user is the returned user, and the session is authenticated iff the returned token is non-empty |
| Auth.LogoutSignsOut | src/lib/auth.ts:104-122 | after logout there is no current user, no authentication and no token |
| Auth.LogoutUndoesLogin | src/lib/auth.ts:104-110 | a login, whatever its reply, followed by logout leaves the same session as logout alone |
| Auth.OperationsKeepPairing | src/lib/auth.ts:64-67 | login, signup and logout keep the `token` and `user` entries present or absent together |
| Auth.ReloadRestoresUser | src/lib/auth.ts:30-39 | after a successful login, a reload restores the same user when parsing reads back what encoding wrote |
| Auth.LoginThenRequestsCarryBearer | src/lib/api.ts:26-35 | after a successful login with a non-empty token, every gateway request carries `Bearer <token>` |
| ChatPage.RequestBody | src/app/chat/page.tsx:64-67 | the body holds exactly `message` = the input and `conversation_id` = the current id or null |
| ChatPage.RequestAsWritten | src/app/chat/page.tsx:58-68 | as written, exactly two headers are sent, the JSON Content-Type and an Authorization header that is `Bearer [object Promise]` whatever is stored |
| ChatPage.Request | src/app/chat/page.tsx:58-68 | the intended request is a POST to `/api/chat/<user id>` whose headers are exactly the JSON Content-Type plus `Bearer <token>` iff a non-empty token is stored, as the gateway builds them |
| ChatPage.AsWrittenHeaderIgnoresToken | src/app/chat/page.tsx:62 | for every real stored token the as-written header differs from the intended one |
| ChatPage.Submit | src/app/chat/page.tsx:34-68 | blank input, a pending reply or no current user change nothing and send nothing; otherwise one user message with the raw input is appended, the input is cleared, loading is set and the as-written request (header `Bearer [object Promise]`) is sent |
| ChatPage.SubmitIntended | src/app/chat/page.tsx:34-68 | the intended submit changes the state exactly as the written one and sends a request with the same URL, method, body and content type, differing only in carrying the stored token: outside Authorization the header maps are equal |
| ChatPage.Interpret | src/app/chat/page.tsx:70-89 | a reply counts as successful iff it is 2xx and its body decodes to an object; a `null` body fails when its fields are read |
| ChatPage.Receive | src/app/chat/page.tsx:76-101 | exactly one assistant message is appended, with the reply text or the fixed apology; the conversation id is taken from a successful reply only while none is known; loading ends |
| ChatPage.InitialAlternates | src/app/chat/page.tsx:16-19 | the chat opens with no messages, empty input, not loading and no conversation id, and that history is well formed |
| ChatPage.SubmitKeepsAlternation | src/app/chat/page.tsx:45-54 | submitting, as written or as intended, keeps messages alternating user/assistant, with a reply pending exactly when the count is odd |
| ChatPage.UserTurnKeepsAlternation | src/app/chat/page.tsx:45-54 | appending one user message to an idle alternating history and starting to load leaves it alternating, with the reply now pending |
| ChatPage.ReceiveKeepsAlternation | src/app/chat/page.tsx:82-101 | receiving the pending reply keeps that alternation |
| ChatPage.SubmitAppends | src/app/chat/page.tsx:36-54 | a submit that passes its guards appends exactly the user's message, clears the input and starts loading |
| ChatPage.ReceiveAppends | src/app/chat/page.tsx:82-101 | receiving appends exactly the assistant's message (reply text or apology), ends loading and keeps the input |
| ChatPage.Exchange | src/app/chat/page.tsx:45-101 | a completed exchange keeps the old messages and adds exactly two, user first then assistant, and ends with loading off and the input empty |
| ChatPage.ConversationIdIsStable | src/app/chat/page.tsx:77-79 | once a conversation id is known, no submit or reply changes it |
| LegacyApp.Mount | src/App.tsx:5-17 | the session is restored only when both `token` and `user_id` are stored and non-empty |
| LegacyApp.ShowsLoginForm | src/App.tsx:19 | the login form is shown unless both the token and the user id are present and non-empty |
| LegacyApp.HandleLogin | src/App.tsx:41-46 | both storage entries and both state fields take the given values; other entries are kept |
| LegacyApp.ReloadRestoresLogin | src/App.tsx:9-46 | after logging in with a non-empty token and id, a reload restores both and skips the login form |
| LegacyApp.ToggleMode | src/App.tsx:139 | the mode link flips `isSignup` and nothing else |
| LegacyApp.RequestOf | src/App.tsx:61-75 | the request is a POST with only the JSON content type; the signup endpoint is used iff `isSignup`; the body holds exactly email and password, plus `full_name` = name only when signing up |
| LegacyApp.OutcomeOf | src/App.tsx:77-86 | an ok reply logs in with `access_token` and `user.id`; a non-ok reply shows `detail` or "Login failed"; anything thrown (a rejection, an undecodable or `null` body, a missing `user`) shows "Network error. Please try again." |
| LegacyApp.HandleSubmit | src/App.tsx:56-88 | the error is cleared, then either the app logs in or the message is shown and the app is untouched |
| LegacyApp.SubmitThenReload | src/App.tsx:9-88 | after an ok reply a reload restores exactly the logged-in session iff the token and user id are non-empty, otherwise the login form returns; after any other reply a reload sees the old storage |
| TaskItem.Initial | src/components/tasks/task-item.tsx:15-17 | a card opens out of edit mode with the task's title and description, or "" |
| TaskItem.TaskIdLabel | src/components/tasks/task-item.tsx:21 | the label has length max(6, number of digits), is zeros followed by `String(id)`, and reads back as the id |
| TaskItem.ZeroPadded | src/components/tasks/task-item.tsx:21 | padding a digit string with '0' adds exactly the missing zeros in front |
| TaskItem.LongIdsUnpadded | src/components/tasks/task-item.tsx:21 | ids with six or more digits are shown unchanged |
| TaskItem.ToggleArgs | src/components/tasks/task-item.tsx:36-42 | toggle requests the negation of the current `completed` |
| TaskItem.StartEdit | src/components/tasks/task-item.tsx:160 | the Edit button enters edit mode and keeps the buffers |
| TaskItem.SaveBody | src/components/tasks/task-item.tsx:56 | the update body is exactly `{title, description}` from the buffers |
| TaskItem.Save | src/components/tasks/task-item.tsx:54-61 | save runs the hook's `updateTask` for the task id with the buffers as body, and leaves edit mode exactly when that did not re-throw |
| TaskItem.SaveOutcome | src/components/tasks/task-item.tsx:54-61 | an accepted save leaves edit mode and the list shows the server's task at the card's id; a failed save stays in edit mode and the list is unchanged |
| TaskItem.Cancel | src/components/tasks/task-item.tsx:63-67 | cancel restores the buffers to the task's title and description (or "") and leaves edit mode, the state the card first showed |
| TaskItem.DeleteArgs | src/components/tasks/task-item.tsx:44-52 | the delete request is made iff the user confirms |
| TaskItem.ToggleFlipsCompletion | src/components/tasks/task-item.tsx:38 | when the server confirms a card's toggle, every task with that id in the list has its `completed` flipped |

## Findings

| source | as written | input that shows it | evidently intended | confidence | as-written member | corrected member |
|---|---|---|---|---|---|---|
| src/app/chat/page.tsx:62 | the header interpolates `authService.getAuthToken()`, an async method, so it interpolates a Promise | any stored token such as `t1`: the header sent is `Bearer [object Promise]` | `Bearer t1`, the stored token | high; not executed | ChatPage.RequestAsWritten | ChatPage.Request |
| src/lib/api.ts:58 | every 2xx body is read with `response.json()`, so a DELETE answered "204 No Content" throws "Unexpected error occurred" and `deleteTask` keeps the task and shows that message | deleting task 1 from a list holding it, with the backend's 204 reply: the task stays listed | a 204 reply is a success without data and the task is removed | medium, depends on the backend answering 204; not executed | UseTasks.DeleteTask | UseTasks.DeleteTaskIntended |

## Left out

- Real `fetch`, `localStorage` and JSON encoding/decoding: replaced by the reply, storage-map and encode/parse inputs described above.
- Concurrency: two task mutations racing against the list (last response wins) and double submits before a re-render are not modelled; each operation is atomic.
- Rendering, CSS, scrolling, and `router.push`/`router.refresh`: the chat's redirect without a current user appears only as "nothing is sent".
- Header, home page, dashboard layout and task list components: they only render or redirect.
- Dashboard page: only its create body and its wiring of `onUpdate` to the hook's `updateTask` (used by `TaskItem.Save`) are modelled. Closing the form afterwards is presentation.
- Message ids and timestamps (`Date.now`, `new Date`), date formatting, the copy-to-clipboard action with its `setTimeout`, and `console` logging.
- `ChatInterface` is not part of this model.
- ChatPage.Request: with no stored token it sends no `Authorization` header, as the gateway does. This is a chosen reading. An awaited call at `src/app/chat/page.tsx:62` would send `Bearer null`.
- `NEXT_PUBLIC_API_URL` is the `configured` parameter of `Api.BaseUrl`.
- The `AuthService` singleton: the session is an explicit value passed to every operation.
- The login page under `src/app/(auth)/login/`: a caller of `Auth.Login`, not modelled itself.
- Non-string `detail` or `message` fields are not modelled. FastAPI validation errors send `detail` as an array, which JavaScript would use as a truthy object. Both fields are modelled as optional strings.
- `undefined` and `null` are merged into `None`. For `completed_at`, both mean "no completion time".
- Reply fields that are missing although the reply is ok are not modelled, except a missing `user` on the login screen. Examples are a missing `access_token`, `response` or `conversation_id`. JavaScript would store or show the text `undefined`.
- JavaScript number printing for ids of 1e21 or more (exponent form) and precision beyond 2^53: `DecimalString` covers ordinary ids.
- The chat page's thrown message (`detail` or "Failed to get response from AI") is only logged. The apology is what the page shows.
- The `maxLength` attributes on the form inputs are a browser typing limit. The submit-time checks are modelled in full.
- `ApiError`'s class name and stack are not modelled.
- `TaskForm.Submit` does not model exceptions from `onSubmit`. The dashboard's handler catches its own errors.
