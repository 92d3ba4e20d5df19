# A verified model of the to-do app's request and state logic

The application is a to-do list with a credentials sign-in, an AI assistant
that gives tips or a step-by-step breakdown for a task, and a paid
subscription. Almost all of it delegates to a web framework, a database
client, an authentication library, a payment provider and a completion API.
This project models the decision and list logic around those services. Each
service is replaced by an abstract store or an input:

- **Client list** (`todo_list.dfy`, module `TodoList`). The list the page
  keeps: append on add, flip `completed` by id on toggle, remove by id on
  delete, replace on fetch, and the `all | active | completed` filter. These
  are pure sequence functions. The `TodoListView` class holds the component's
  state and calls them. The server's reply to each request is an input.
- **Assistant endpoint** (`tips_route.dfy`, module `TipsRoute`). The checks
  for a missing key and a missing task, the choice between tips and
  breakdown, the validation of a breakdown with its single fallback step, and
  the error status. The completion call's outcome is an input. `JSON.parse`
  on non-empty text is a function parameter.
- **Store** (`store.dfy`, module `Store`). The user and todo tables that the
  handlers read and write: unique emails, generated identifiers, todos
  owned by existing users. `Database` is the shared handle. Its methods are
  single store calls, and each is tied to a pure operation on a `Db`
  snapshot.
- **Route handlers**: `GET`/`POST /api/todos` (`todos_route.dfy`), the
  credentials `authorize` with the `jwt` and `session` callbacks
  (`auth_options.dfy`), subscription confirmation
  (`confirm_subscription.dfy`) and the test-user login (`test_login.dfy`).
  A failing store call is the `Fault` input. The payment provider's answer
  is the `Payment` input.
- **Assistant panel** (`todo_panel.dfy`, module `TodoPanel`). Each item's
  `tips`, `subtasks`, `isExpanded`, `isLoading` and `loadingType`. Each
  request is a click that starts it and a reply that finishes it. `Render`
  gives what the item shows.

Shared pieces: `common.dfy` (optional values, identifiers, timestamps,
replies, the session-email test, the two-day trial), `json.dfy` (JSON values,
JavaScript truthiness, property access, reading a request body),
`seqs.dfy` (order-preserving filter and its lemmas), and `text.dfy`
(`String.prototype.trim` over the ECMAScript white space and line
terminators).

Points of the code's behaviour that are easy to overlook, and which the
model keeps:
- `POST /api/todos` stores `text` as given, empty or blank included; only the
  client rejects blank input, after trimming.
- Subscription confirmation reads the request body before it checks the
  session, so an unreadable body gets 500 even without a session.
- Toggle and delete are modelled only as their effect on the client list;
  the server handlers behind them are not part of this model.

## Model

| member | source | states |
|---|---|---|
| `Common.TrialEnd` | src/app/api/auth/auth-options.ts:45 | the trial of a new user ends strictly after the moment of sign-in |
| `Seqs.Filter` | src/app/components/TodoList.tsx:124 | the result is no longer than the input; it holds only input elements that pass the test, and every input element that passes is in it |
| `Seqs.FilterIsSubseq` | src/app/components/TodoList.tsx:131-140 | filtering keeps the surviving elements in their original order |
| `TodoList.Find` | src/app/components/TodoList.tsx:94-95 | the result is absent exactly when no entry has the id; otherwise it is the first entry with the id |
| `TodoList.ToggleById` | src/app/components/TodoList.tsx:108-110 | same length; every entry with the id has `completed` flipped and nothing else changed; every other entry is unchanged |
| `TodoList.ToggleTwiceRestores` | src/app/components/TodoList.tsx:107-110 | toggling the same id twice gives back the original list |
| `TodoList.ToggleAbsentIdChangesNothing` | src/app/components/TodoList.tsx:94-95 | toggling an id that no entry has leaves the list unchanged |
| `TodoList.RemoveById` | src/app/components/TodoList.tsx:123-124 | after a delete no entry has the id; every entry with another id is kept; the order is kept; kept plus removed entries make up the list |
| `TodoList.RemoveAbsentIdChangesNothing` | src/app/components/TodoList.tsx:124 | deleting an id that no entry has leaves the list unchanged |
| `TodoList.Visible` | src/app/components/TodoList.tsx:131-140 | `active` shows exactly the open entries and `completed` exactly the done ones, each in list order, and the two view sizes add up to the list's length, which pins each view even when the list repeats an entry; `all` shows the whole list |
| `TodoList.ActiveAndCompletedPartition` | src/app/components/TodoList.tsx:131-140 | the sizes of the `active` and `completed` views add up to the list's length, so every entry shows in exactly one of them |
| `TodoList.TodoListView.constructor` | src/app/components/TodoList.tsx:21-25 | starts with an empty list, empty input, loading, category `other` and filter `active` |
| `TodoList.TodoListView.FetchTodos` | src/app/components/TodoList.tsx:27-41 | without a session email nothing changes; otherwise a reply carrying `todos` replaces the list, any other outcome keeps it, and loading ends |
| `TodoList.TodoListView.AddTodo` | src/app/components/TodoList.tsx:64-90 | blank trimmed input or no session email sends nothing and changes nothing; otherwise the trimmed text, category and placeholder annotations are sent; a returned item is appended at the end and the input cleared; any other reply changes nothing |
| `TodoList.TodoListView.ToggleTodo` | src/app/components/TodoList.tsx:92-115 | an unknown id sends nothing and changes nothing; otherwise the negated flag of the first match is sent; an ok response applies `ToggleById`; any other outcome keeps the list |
| `TodoList.TodoListView.DeleteTodo` | src/app/components/TodoList.tsx:117-129 | an ok response applies `RemoveById`; any other outcome keeps the list; other state is unchanged |
| `TodoList.TodoListView.SetNewTodo` | src/app/components/TodoList.tsx:163 | only the input text changes |
| `TodoList.TodoListView.SetCategory` | src/app/components/TodoList.tsx:169 | only the category changes |
| `TodoList.TodoListView.SetFilter` | src/app/components/TodoList.tsx:190 | only the filter changes |
| `Text.Trim` | src/app/components/TodoList.tsx:75 | the result is a contiguous slice of the input with only white space cut from either end, and it neither starts nor ends with white space |
| `Text.TrimEmptyIffBlank` | src/app/components/TodoList.tsx:66 | the trimmed text is empty exactly when the input is all white space |
| `Text.TrimIdempotent` | src/app/components/TodoList.tsx:75 | trimming twice is the same as trimming once |
| `TipsRoute.ErrorStatus` | src/app/api/tips/route.ts:95 | the error's own non-zero status, else 500; never 0 |
| `TipsRoute.ErrorMessage` | src/app/api/tips/route.ts:92 | the error's message when non-empty, else the fixed default; never empty |
| `TipsRoute.ActionOf` | src/app/api/tips/route.ts:19-28 | a breakdown exactly when `action` is the string "breakdown"; a missing `action` defaults to tips |
| `TipsRoute.Validate` | src/app/api/tips/route.ts:12-28 | no key gives 500 whatever the body; with a key, an unreadable or null body gives 500, and a readable body is rejected, with 400 "Task is required", exactly when `task` is falsy; every rejection is 500 or that 400; a call carries the truthy task and is a breakdown exactly when `action` is the string "breakdown" |
| `TipsRoute.ValidSubtasks` | src/app/api/tips/route.ts:52-56 | the steps are accepted exactly when the parsed value is an object whose `subtasks` is a non-empty array, and then they are that array unchanged |
| `TipsRoute.Breakdown` | src/app/api/tips/route.ts:46-66 | the breakdown is never empty; it is either the single fallback step or the validated parsed steps |
| `TipsRoute.Respond` | src/app/api/tips/route.ts:28-96 | a thrown completion is exactly the error case, with status `error.status` or 500; a reply answers with subtasks exactly for a breakdown and with tips otherwise |
| `TipsRoute.Post` | src/app/api/tips/route.ts:9-98 | no key gives 500; a validation rejection is answered as such; once validated, a completion reply always succeeds; a tips answer carries the completion's content |
| `TipsRoute.RejectionMakesNoUpstreamCall` | src/app/api/tips/route.ts:12-26 | when validation rejects, the answer does not depend on the completion service or the parser |
| `TipsRoute.ActionDefaultsToTips` | src/app/api/tips/route.ts:19-87 | a request with a truthy task whose `action` is missing or anything but "breakdown" is answered `{tips: content}` |
| `TipsRoute.BreakdownPassesValidSteps` | src/app/api/tips/route.ts:46-66 | a breakdown with a reply never fails; it returns the parsed steps when they are a non-empty array, else the fallback step |
| `TipsRoute.MalformedBreakdownFallsBack` | src/app/api/tips/route.ts:50-65 | unparsable text, or a parsed value without a non-empty `subtasks` array, gives exactly the single fallback step |
| `TipsRoute.NullContentFallsBack` | src/app/api/tips/route.ts:50 | null content gives the single fallback step |
| `TipsRoute.PanelRequestsSelectTheirAction` | src/app/components/Todo.tsx:37-60 | the panel's `{task}` body takes the tips path and its `{task, action: 'breakdown'}` body takes the breakdown path |
| `Store.FindByEmail` | src/app/api/todos/route.ts:15-18 | a found user is in the table with that email; nothing is found exactly when no row has the email |
| `Store.FindOrCreate` | src/app/api/auth/auth-options.ts:40-47 | an existing email leaves the store exactly as it was; otherwise one unsubscribed user with a fresh id and the given trial end is appended; todos are untouched |
| `Store.AddTodo` | src/app/api/todos/route.ts:49-55 | users are unchanged; exactly one open row with a fresh id, the given text, category and owner, and no annotations, is appended |
| `Store.MarkSubscribed` | src/app/api/confirm-subscription/route.ts:29-32 | same rows in the same order; only `isSubscribed` of rows with the email is set; every other row is unchanged |
| `Store.FindByEmailFindsRow` | src/app/api/todos/route.ts:15-18 | with unique emails, looking up a row's email returns that row |
| `Store.FindOrCreateSpec` | src/app/api/auth/auth-options.ts:40-47 | find-or-create keeps the store's constraints, and afterwards the email resolves to the old row or to the new one |
| `Store.FindOrCreateIdempotent` | src/app/api/auth/test-login/route.ts:10-21 | a second find-or-create of the same email changes nothing |
| `Store.CreatedTodoListedOnce` | src/app/api/todos/route.ts:49-55 | the owner's todo list gains exactly the new row, after the earlier ones; no earlier row has its id; the constraints hold |
| `Store.CreateLeavesOtherUsersTodos` | src/app/api/todos/route.ts:49-55 | creating a todo for one user leaves every other user's list unchanged |
| `Store.MarkSubscribedSpec` | src/app/api/confirm-subscription/route.ts:29-32 | marking twice is the same as marking once, and the constraints hold |
| `Store.FindByEmailAppend` | src/app/api/auth/auth-options.ts:40-47 | after appending a row, a lookup finds the earlier row with that email if there was one, otherwise the appended row when its email matches, otherwise nothing |
| `Store.MarkSubscribedFindsRow` | src/app/api/confirm-subscription/route.ts:29-32 | after the update, looking up the email finds the same row as before with `isSubscribed` set |
| `Store.Database.constructor` | src/app/api/todos/route.ts:5 | an empty store that meets the constraints, which shows they can hold; the handle opens whatever the database already holds, so every route method takes any store that meets them |
| `Store.Database.CreateUser` | src/app/api/auth/test-login/route.ts:15-20 | refused and unchanged when the email is taken; otherwise the store becomes the find-or-create result and the new row is returned |
| `Store.Database.Upsert` | src/app/api/auth/auth-options.ts:40-47 | the store becomes the find-or-create result; the returned row is the one now holding the email: the old row if there was one, else the new one |
| `Store.Database.CreateTodo` | src/app/api/todos/route.ts:49-55 | refused and unchanged for an unknown owner; otherwise the store becomes `AddTodo`'s result and the new row is returned |
| `Store.Database.UpdateSubscribed` | src/app/api/confirm-subscription/route.ts:29-32 | refused and unchanged when no row has the email; otherwise only the users table changes, by `MarkSubscribed`, and the updated row is returned |
| `TodosRoute.Get` | src/app/api/todos/route.ts:7-29 | no session email gives 401; a throwing lookup gives 500; 404 exactly when no user has the email; a known email with no lookup fault always succeeds, returning the todos of the user with that email |
| `TodosRoute.TextArg` | src/app/api/todos/route.ts:39-51 | the stored text is the body's `text` when it is a JSON string, and there is none otherwise |
| `TodosRoute.CategoryArg` | src/app/api/todos/route.ts:39 | a missing `category` becomes "other"; a string `category` is kept; any other value is refused |
| `TodosRoute.Post` | src/app/api/todos/route.ts:31-62 | every error leaves the store unchanged; the error ladder is 401, then 500 for an unreadable body, then 500 for a failed lookup, then 404 exactly for an unknown email; for a known user, a throwing create or a non-string text or category gives 500; success needs no store fault and adds exactly one row with the text as given, owned by the session user, and returns that row; with valid arguments and no fault it succeeds |
| `TodosRoute.ListAfterCreate` | src/app/api/todos/route.ts:7-57 | after a successful create, listing shows the user's earlier todos followed by the new one, exactly once |
| `TodosRoute.CreateIsInvisibleToOthers` | src/app/api/todos/route.ts:15-55 | a todo created for one user does not change what any other email's listing returns |
| `AuthOptions.IsDemoLogin` | src/app/api/auth/auth-options.ts:33-38 | accepted exactly for the pair `test@example.com` / `demo123`; missing or empty fields are rejected |
| `AuthOptions.Authorize` | src/app/api/auth/auth-options.ts:32-57 | anything but the demo pair returns null and leaves the store unchanged; a failing upsert changes nothing; otherwise the store becomes find-or-create of the demo email with a two-day trial, and the identity of the stored row is returned, which is the existing row when there was one |
| `AuthOptions.RepeatedLoginKeepsOneUser` | src/app/api/auth/auth-options.ts:40-47 | a second demo login changes nothing; the constraints (one row per email) hold; the demo user exists |
| `AuthOptions.Jwt` | src/app/api/auth/auth-options.ts:68-75 | without a user the token is unchanged; with one, its id, email and trial end are copied and other claims are kept; the same token object is returned |
| `AuthOptions.SessionCallback` | src/app/api/auth/auth-options.ts:76-83 | with a token and a session user, the token's id, email and trial end are copied into the session user and other fields are kept; otherwise nothing changes; the same session object is returned |
| `AuthOptions.SignInClaims` | src/app/api/auth/auth-options.ts:68-83 | running `jwt` and then `session` leaves the session user with the signed-in identity's id, email and trial end |
| `ConfirmSubscription.Confirm` | src/app/api/confirm-subscription/route.ts:12-48 | every error leaves the store unchanged; 500 for an unreadable body, 401 without a session email, 500 with the provider's message when retrieval fails, 400 for any status but "paid"; a paid status gives 500 when the update throws or finds no row, else success; success marks only the session email's row |
| `ConfirmSubscription.PaidConfirmationEffect` | src/app/api/confirm-subscription/route.ts:29-32 | the session email's row gains `isSubscribed`; every other row is unchanged; confirming again changes nothing |
| `TestLogin.Post` | src/app/api/auth/test-login/route.ts:7-28 | a failure is 500 and changes nothing; success means the store became find-or-create of the test email with a two-day trial, so a test user exists; with no fault it succeeds; a failing create only matters when the user is absent |
| `TodoPanel.AiPanel.constructor` | src/app/components/Todo.tsx:21-26 | starts collapsed, not hovered and idle, with no tips and no subtasks |
| `TodoPanel.AiPanel.Render` | src/app/components/Todo.tsx:95-190 | the priority line needs a non-empty priority and description on an open item; the buttons show only for an open item and are disabled while loading; each button's spinner shows exactly while its own request is in flight; the panel shows exactly when expanded with tips or subtasks; the tips section shows exactly when expanded with tips, the breakdown section exactly when expanded with subtasks, and never both together |
| `TodoPanel.AiPanel.Click` | src/app/components/Todo.tsx:28-53 | a click on an absent or disabled button changes nothing; otherwise loading starts with the matching kind and the results and expansion are kept |
| `TodoPanel.AiPanel.FinishTips` | src/app/components/Todo.tsx:31-48 | loading always ends; a parsed reply sets tips from the reply, clears subtasks and expands; a failed request keeps tips, subtasks and expansion |
| `TodoPanel.AiPanel.FinishBreakdown` | src/app/components/Todo.tsx:54-71 | loading always ends; a parsed reply sets subtasks from the reply, clears tips and expands; a failed request keeps tips, subtasks and expansion |
| `TodoPanel.AiPanel.Close` | src/app/components/Todo.tsx:208 | only the expansion is cleared, which hides the panel |
| `TodoPanel.AiPanel.SetHovered` | src/app/components/Todo.tsx:78-79 | only the hover flag changes |
| `TodoPanel.TipsRoundTrip` | src/app/components/Todo.tsx:28-48 | clicking "Get Tips" and receiving `{tips: text}` leaves the panel idle and visible, with exactly those tips and no subtasks |

## Left out

- Network, database, payment-provider and completion-service calls. Their
  outcomes are inputs: `Fault`, `Payment`, `Completion`, and the client's
  `Response`, `AddReply`, `FetchReply` and panel `Reply`. Prompts, model
  names, token limits and temperatures are parameters with no logic.
- `JSON.parse` on completion text is an arbitrary function parameter. Only
  the literal `'{}'` fallback is fixed, as the empty object. JSON numbers are
  integers: fractions and `NaN` are not modelled.
- A completion without `choices[0]` is not modelled.
- The error `details` field (stack traces, upstream data) in the assistant
  endpoint's error body is not modelled.
- Two error messages come from the runtime: the TypeError for destructuring
  `null`, and the database's text for an update that finds no row. These
  are fixed stand-in strings.
- The database schema is not part of this model. A `text` or `category` that
  is not a string (e.g. `null`) is taken to be refused by it, giving 500. The
  POST handler stores neither `priority` nor `description`, so created rows
  have none.
- `Store.TodosOf`: a user's todos are listed in insertion order. The
  program loads them without any ordering and the database does not
  promise one. So the "after the earlier ones" parts of
  `Store.CreatedTodoListedOnce` and `TodosRoute.ListAfterCreate` hold only
  in this model. Their "exactly once" and fresh-id parts do not depend on
  order.
- Identifiers are opaque generated strings. Here they are naturals taken
  from a counter; only their equality matters.
- `addDays` works in calendar days. The trial end here is exactly two days
  of milliseconds, so daylight-saving shifts are not modelled.
- Concurrency. Each asynchronous handler runs to completion at once, so
  stale closures over `todos` and interleaved requests or races between two
  confirmations are not modelled.
- `TodoList.TodoListView.AddTodo`: the reply is modelled as the created
  item or null. The component appends any truthy JSON reply, so an error
  body such as `{error: 'User not found'}` would also be appended. The
  model does not capture that.
- The `PATCH`/`DELETE /api/todos/[id]` handlers are not part of this model.
  Server-side ownership checks on toggle and delete are therefore not
  modelled.
- Not modelled: the access-gate middleware (`authorized` is `!!token`, over a
  path matcher the framework interprets); token signing and session
  resolution (the session email is an input); the environment report
  route; the presentation pages.
- `src/app/api/auth/[...nextauth]/route.ts`, the mounted sign-in handler,
  is not part of this model. It defines its own configuration instead of
  importing `authOptions`; none of the handlers modelled here imports
  `authOptions` either, and they call `getServerSession()` with no arguments. Its
  upsert creates the demo user without `trialEnds`. Its `jwt` and `session`
  callbacks copy only `id` and `email`. The `AuthOptions` module follows
  `auth-options.ts`. So the two-day trial that `AuthOptions.Authorize` and
  `AuthOptions.SignInClaims` describe is that file's behaviour, not what
  the served handler sets.
- Rendering details, styling and animation are not modelled, nor is the
  Cmd/Ctrl+N shortcut that only focuses the input.
