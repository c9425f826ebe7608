# Task-management client: session, API shaping and task view-model

This project models the four parts of the single-page task-management client
that hold logic, not markup:

- **Task list view-model** (`src/pages/Tasks.tsx`, module `TaskList`). Filtering
  of the in-memory `tasks` list is a chain of three steps. The first is a
  case-insensitive substring search over title and description. The second
  keeps one status and the third keeps one priority; either can be switched
  off with `'ALL'`. The mutation handlers splice the server's reply into the
  list: they prepend a created task, replace by id on update, complete and
  set-in-progress, and remove by id on delete. The filter pipeline is pure
  functions with lemmas. The handlers are methods of a class whose fields are
  the page's `tasks`, `error` and `loading` state.
- **Task form** (`src/components/TaskModal.tsx`, module `TaskForm`). The module
  covers the due-date encoding (`YYYY-MM-DD` to `YYYY-MM-DDT00:00:00`) and the
  prefill that decodes it by splitting at `T`. It also covers the payload
  built on submit: trimmed title and description, `status` only when editing,
  and the validation errors. The displayed error text follows a fixed
  precedence. `TaskModal` is a class with the form's fields plus
  `loading`/`error`.
- **Session provider** (`src/contexts/AuthContext.tsx`, module `Auth`). This is
  the `user`/`token`/`loading` state machine over a persisted key/value token
  store (module `Storage`, a class over `map<string, string>`). It covers
  start-up restoration, login, registration and logout. The class invariant is
  that there is no user without a non-empty token, and that the `token` state
  always equals what is stored under `'token'`.
- **HTTP client wrapper** (`src/services/api.ts`, module `Api`). This part
  builds the login and register request bodies: the name is split into first
  and last name, and the username is taken from the email. The request
  interceptor attaches `Authorization: Bearer …`. The response interceptor
  answers a 401 by refreshing the tokens, then either replays the request or
  clears the tokens and redirects to `/login`.

Domain values (`Task`, `TaskStatus`, `TaskPriority`, `User`, the task
payload, the error shape a failed call exposes) are in module `Types`. The
JavaScript string operations the code relies on (`toLowerCase`, `includes`,
`trim`, `split`, `join`) are in module `Text`.

Awaited calls (`tasksAPI.*`, `authAPI.*`, `userAPI.getMe`, the refresh POST,
the form's `onSubmit`) are not executed. Each appears as a parameter that says
how the call settled: a value or an error. `window.confirm` is a boolean
parameter. `new Date(x)`'s validity test is a predicate parameter `parses`.

The code is modelled as written, including these quirks:

- The provider stores its token under `'token'`, while both interceptors read
  and write `'accessToken'`. `Auth.LoginLeavesBearerAlone` shows that logging
  in does not change whether requests carry a bearer header.
  `Auth.LogoutKeepsBearer` shows that logout leaves a refreshed
  `'accessToken'` in place.
- `authAPI` has no `logout` member, so the server call in `logout` always
  throws and is ignored. `Auth.AuthProvider.Logout` therefore takes no reply
  and performs only the clean-up.
- A replayed request goes through the same interceptors and has no retry
  guard: a replay refused with 401 again triggers another refresh.
  `Api.RepeatedRefresh` shows a second refresh and a second replay.
- The provider's own calls (`userAPI.getMe`, `authAPI.login`,
  `authAPI.register`) go through the same axios instance. A 401 on one of
  them makes the response interceptor rewrite or remove `'accessToken'` and
  `'refreshToken'`, and perhaps redirect, before the provider sees the
  result. `Api.Send` models one call through the instance. `Auth.StartUp`
  and `Auth.LoginThroughClient` put it in front of the provider's own
  handling. The provider methods themselves (`InitAuth`, `Login`,
  `Register`) start from the store as the awaited call left it.
- JavaScript truthiness is kept. An empty stored token counts as absent. An
  empty search term skips the search. An empty `err.message` falls through to
  the generic text. A present but empty `fieldErrors` object yields an empty
  error text.

## Model

| member | source | states |
|---|---|---|
| `Text.Includes` | src/pages/Tasks.tsx:58-59 | `includes` is true iff the term occurs at some position of the string |
| `Text.Trim` | src/components/TaskModal.tsx:87-103 | `trim` gives a contiguous slice of the input that does not start or end with white space, and everything before and after it is white space; it is empty iff the input is all white space |
| `Text.JoinSplit` | src/services/api.ts:65-66 | splitting at a character and joining with it gives the string back |
| `TaskList.FilterTasks` | src/pages/Tasks.tsx:53-72 | the filtered list holds each task that passes the search, the status filter and the priority filter as often as `tasks` does, and no other task; every element passes all three |
| `TaskList.FilterTasksNoCriteria` | src/pages/Tasks.tsx:53-71 | with an empty term and both filters on 'ALL' the filtered list equals `tasks` |
| `TaskList.FilterTasksSubsequence` | src/pages/Tasks.tsx:54-69 | the filtered list is an order-preserving subsequence of `tasks` |
| `TaskList.SearchMeaning` | src/pages/Tasks.tsx:56-60 | a task passes the search iff its lower-cased title contains the lower-cased term at some position, or it has a description that does; a task without a description is matched on its title only |
| `TaskList.FilterTasksIdempotent` | src/pages/Tasks.tsx:53-71 | filtering the filtered list again with the same criteria changes nothing |
| `TaskList.StatusPriorityCommute` | src/pages/Tasks.tsx:63-69 | the status step and the priority step commute |
| `TaskList.FilterCommute` | src/pages/Tasks.tsx:63-69 | any two `filter` steps commute |
| `TaskList.FilterCount` | src/pages/Tasks.tsx:57-68 | `filter` keeps an element as often as it occurs when it satisfies the predicate, and never otherwise |
| `TaskList.FilterMembership` | src/pages/Tasks.tsx:57-68 | an element survives `filter` iff it is in the list and satisfies the predicate |
| `TaskList.ReplaceById` | src/pages/Tasks.tsx:88 | the length is kept, every task with the id becomes the reply, every other task is unchanged |
| `TaskList.RemoveById` | src/pages/Tasks.tsx:102 | no task with the id remains; every task with another id is kept as often as it occurred; the result is an order-preserving subsequence |
| `TaskList.ReplaceIdempotent` | src/pages/Tasks.tsx:88 | applying the same update reply twice is applying it once |
| `TaskList.RemoveAfterReplace` | src/pages/Tasks.tsx:88-102 | deleting a task just updated under its own id gives the same list as deleting it without the update |
| `TaskList.RemoveAfterCreate` | src/pages/Tasks.tsx:77-102 | deleting a just-created task gives the list that deleting its id gave before the create |
| `TaskList.ThrownMessage` | src/pages/Tasks.tsx:81 | a failed create/update re-throws the server's message when it is non-empty, the fixed fallback otherwise |
| `TaskList.TaskListView.FetchTasks` | src/pages/Tasks.tsx:40-51 | on success `tasks` is the server's list; on failure `tasks` is kept and `error` is 'Failed to fetch tasks'; `loading` ends false |
| `TaskList.TaskListView.CreateTask` | src/pages/Tasks.tsx:74-83 | on success `tasks` becomes `[created] + old tasks`; on failure `tasks` is kept and 'Failed to create task' or the server message is thrown |
| `TaskList.TaskListView.UpdateTask` | src/pages/Tasks.tsx:85-95 | on success `tasks` is the replace-by-id of the old list; on failure `tasks` is kept and the message is thrown |
| `TaskList.TaskListView.DeleteTask` | src/pages/Tasks.tsx:97-107 | without confirmation nothing changes; on success the id is removed; on failure `tasks` is kept and only `error` is set |
| `TaskList.TaskListView.CompleteTask` | src/pages/Tasks.tsx:109-117 | on success replace-by-id with the reply; on failure `tasks` is kept and `error` is 'Failed to complete task' |
| `TaskList.TaskListView.SetInProgress` | src/pages/Tasks.tsx:119-127 | on success replace-by-id with the reply; on failure `tasks` is kept and `error` is 'Failed to update task status' |
| `TaskForm.FormatForBackend` | src/components/TaskModal.tsx:39-69 | empty input gives null; a malformed input throws 'Invalid date format: … Expected YYYY-MM-DD'; a date the calendar check rejects throws 'Invalid date: …'; otherwise the result is the input followed by `T00:00:00` and matches the `YYYY-MM-DDTHH:mm:ss` check |
| `TaskForm.DueDateInput` | src/components/TaskModal.tsx:28 | the prefilled date is the text before the first `T` of the due date, the whole due date when it holds no `T`, and empty for an absent or empty due date |
| `TaskForm.DueDateRoundTrip` | src/components/TaskModal.tsx:28-64 | taking the part before the first `T` of an encoded due date gives the original date input back |
| `TaskForm.StoredDueDateRoundTrip` | src/components/TaskModal.tsx:28-64 | a stored midnight due date survives prefill and re-encoding unchanged |
| `TaskForm.Prefill` | src/components/TaskModal.tsx:21-37 | editing copies the task's title, description (or ''), priority, status and date part of the due date; creating resets to '', '', MEDIUM, PENDING, '' |
| `TaskForm.Payload` | src/components/TaskModal.tsx:86-123 | a blank title throws 'Title is required' first; the payload is built iff the title is not blank and the due date is empty or valid, so the final date-time check never fires; it holds the trimmed title, the trimmed description or none, the priority, the encoded due date or null, and a status iff editing |
| `TaskForm.EditRoundTrip` | src/components/TaskModal.tsx:21-112 | editing a task whose fields are in normal form and submitting without changes sends the task's own values back |
| `TaskForm.FieldErrorsText` | src/components/TaskModal.tsx:142-145 | field errors are rendered as `field: message` pairs joined by `, `: none gives '', one gives `field: message`, and more give the first pair, `, ` and the text of the rest |
| `TaskForm.ErrorText` | src/components/TaskModal.tsx:137-151 | the server message wins, then the field errors, then the error's own message, then 'An unexpected error occurred' |
| `TaskForm.LocalErrorShown` | src/components/TaskModal.tsx:87-151 | every error the form raises itself is displayed with its own message |
| `TaskForm.TaskModal.Open` | src/components/TaskModal.tsx:21-37 | the fields become the prefill of the task (or the defaults) and `error` is cleared |
| `TaskForm.TaskModal.BuildPayload` | src/components/TaskModal.tsx:86-123 | the step-by-step construction (validate, encode, build, add status) gives exactly `Payload` |
| `TaskForm.TaskModal.Submit` | src/components/TaskModal.tsx:71-155 | `onSubmit` receives the payload iff validation passes; the modal closes iff `onSubmit` resolved; `error` is the validation message or the text of the `onSubmit` failure; `loading` ends false |
| `Api.LoginRequest` | src/services/api.ts:54-57 | the login body is `{usernameOrEmail: email, password}` |
| `Api.NameSplitMeaning` | src/services/api.ts:65-66 | the first name is the text before the first space; the last name is the text after it, or the first name when that text is empty or there is no space; otherwise first + ' ' + last rebuilds the name |
| `Api.UsernameFromEmail` | src/services/api.ts:69 | the username has no '@'; it is the whole email without '@', otherwise the text before the first '@' |
| `Api.RegisterRequest` | src/services/api.ts:61-77 | the register body carries the username from the email, email, password and the split name |
| `Api.WithBearer` | src/services/api.ts:14-19 | the headers gain `Authorization: Bearer <token>` iff a non-empty 'accessToken' is stored, and are untouched otherwise |
| `Api.WithBearerIdempotent` | src/services/api.ts:14-19 | running the request interceptor twice (as a replay does) is running it once |
| `Api.RefreshedItems` | src/services/api.ts:35-36 | after a refresh 'accessToken' and 'refreshToken' hold the reply's values and no other key changes |
| `Api.DroppedItems` | src/services/api.ts:41-42 | after a failed refresh both keys are gone and no other key changes |
| `Api.ApiClient.InterceptRequest` | src/services/api.ts:14-20 | the outgoing headers are `WithBearer` of the stored items; the url is untouched |
| `Api.ApiClient.InterceptError` | src/services/api.ts:23-48 | non-401: reject unchanged, store untouched; 401 without a refresh token: no refresh call, store untouched, reject; refresh success: both tokens overwritten and the request replayed with the new bearer header; refresh failure: both keys removed, location '/login', reject; 'token' is never touched |
| `Api.Send` | src/services/api.ts:23-48 | a call through the axios instance: a success or a non-401 failure reaches the caller unchanged and touches nothing; a 401 with a stored refresh token and a successful refresh stores the new tokens and yields the replay's result; a failed refresh drops both keys, redirects to '/login' and yields the original error; 'token' is never touched |
| `Api.RepeatedRefresh` | src/services/api.ts:26-38 | a replayed request that meets another 401 triggers a second refresh and a second replay |
| `Auth.AdoptedItems` | src/contexts/AuthContext.tsx:59-62 | a successful login stores the token under 'token', the refresh token only when present, and changes nothing else |
| `Auth.ClearedItems` | src/contexts/AuthContext.tsx:107-108 | 'token' and 'refreshToken' are removed and nothing else changes |
| `Auth.LoginLeavesBearerAlone` | src/contexts/AuthContext.tsx:59-62 | logging in does not change whether requests carry a bearer header |
| `Auth.LogoutKeepsBearer` | src/contexts/AuthContext.tsx:107-108 | logout does not remove a bearer header written by a refresh |
| `Auth.RefreshKeepsSessionToken` | src/services/api.ts:35-42 | neither branch of the refresh touches the provider's 'token' |
| `Auth.AuthProvider.constructor` | src/contexts/AuthContext.tsx:20-22 | no user, `token` read from the store, loading |
| `Auth.AuthProvider.InitAuth` | src/contexts/AuthContext.tsx:25-42 | from the store as the fetch left it: without a stored token nothing is fetched and nothing changes; a successful fetch sets the user; a failed fetch removes both keys and nulls `token` without throwing; `loading` is false on every path; the invariant holds |
| `Auth.AuthProvider.Login` | src/contexts/AuthContext.tsx:47-71 | from the store as the login call left it: a failed call or a reply without token or user changes neither the state nor the store any further; success stores the tokens as `AdoptedItems` and sets `token` and `user`; the invariant holds |
| `Auth.AuthProvider.Register` | src/contexts/AuthContext.tsx:73-97 | the same contract as login, for the register body |
| `Auth.StartUp` | src/contexts/AuthContext.tsx:25-42 | start-up with the fetch sent through the axios instance: fetched iff a non-empty 'token' is stored; after a 401, a refresh and a successful replay, the user is set and the store holds the refreshed tokens beside 'token'; after a failed refresh, both interceptor keys and both provider keys are gone, the location is '/login' and there is no user; after a non-401 failure or a 401 without a stored refresh token, both provider keys are removed, there is no user and the location is kept; after a refresh whose replay fails, the provider keys are removed from the refreshed store |
| `Auth.LoginThroughClient` | src/contexts/AuthContext.tsx:47-71 | login sent through the axios instance: a 401 with a stored refresh token and a failed refresh makes the login throw the original error, after the interceptor keys are dropped and the page is redirected; after a successful refresh and a usable replay the login tokens are adopted on top of the refreshed store |
| `Auth.AuthProvider.Logout` | src/contexts/AuthContext.tsx:99-112 | always ends with both keys removed and `user`/`token` null |
| `Auth.LoginThenLogout` | src/contexts/AuthContext.tsx:47-112 | logging in sets the user; logging out afterwards leaves no user and no session token |

## Left out

- Rendering, styling lookups, dropdown and modal visibility flags, navigation
  and the confirmation dialog's text are presentation only. The result of
  `confirm` is a parameter.
- `isOverdue`, the date input's `min` attribute and the `Date` validity test
  depend on the wall clock and on the host's date parsing. The validity test is
  the abstract predicate `parses`.
- The dashboard, profile, health-check and layout components only fetch and
  display data. The profile's completion rate is floating point.
- axios, `localStorage`, `window.location` and the network are not modelled as
  libraries. The store is a map, the location is a string field, and every
  awaited call is a parameter that says how it settled.
- Async ordering and React effect scheduling are left out. This includes
  replies applied in completion order and a login finishing before start-up
  restoration does. `Auth.AuthProvider.InitAuth` requires that no user is set
  yet, as on mount.
- `Text.Lower`: lower-casing maps only the ASCII letters. JavaScript's full
  Unicode case mapping is not modelled.
- `Api.ApiClient.InterceptError`: a refresh reply whose `accessToken` or
  `refreshToken` field is missing is not modelled. The source would store the
  text `undefined`; the model's refresh outcome always carries two strings.
- The result of a replayed request is left to whoever awaits it.
  `Api.ApiClient.InterceptError` returns the configuration to replay, and
  `Api.Send` takes the replay's outcome as a parameter. The replay's own trip
  through the interceptors is not followed further: a second 401 on it is
  shown only by `Api.RepeatedRefresh`.
- `Auth.AuthProvider.Register`: registration sent through the axios instance
  is not composed separately. It takes the same path as
  `Auth.LoginThroughClient`, since both settle through the same provider
  step.
- Strings are sequences of Dafny `char`, which are Unicode scalar values, not
  the UTF-16 code units of JavaScript strings. A lone surrogate, which a
  JavaScript string can hold, cannot be represented. None of the modelled
  operations treats surrogates specially.
- Console logging is left out.
