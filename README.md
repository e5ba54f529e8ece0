# EmployWise client: login, route guard and user list, in Dafny

This project models the decision logic of a small React client for the
reqres.in demo API. A visitor logs in, which stores a session token. With the
token, the visitor reaches a paginated list of user records. Each record can
be edited (first name, last name, email) or deleted.

Every remote call is replaced by an input that says whether the call
succeeded and, if it did, what it returned. Every event handler is one atomic
step.

- `Options` (options.dfy): the optional-value datatype the other modules share.
- `Auth` (auth.dfy): the session token (`Option<string>`, where `None` stands
  for null or undefined) and its JavaScript truthiness (`IsPresent`: null,
  undefined and `""` are falsy). It also holds the session store's `login` and
  `logout`.
- `Routing` (routing.dfy): the three-entry route table of `App` and the
  `PrivateRoute` guard. These are pure functions from a path and a token to a
  `View`: a page on screen or a redirect.
- `Login` (login.dfy): the login form. `LoginState` and its transition
  functions say what a submission does. The class `LoginPage` performs the
  same steps imperatively and is proved equal to those functions.
- `UsersList` (users_list.dfy): the user-list page. The two list rewrites are
  `MergeEdits` (the `map` with object spread) and `RemoveById` (the `filter`).
  One transition function per handler. `Run` folds a sequence of events. The
  class `UsersListPage` has the component's state fields. Each handler is a
  method whose new state equals the transition function applied to the old
  state, and the method keeps `page >= 1`.
- `Flows` (flows.dfy): lemmas that connect the login page, the list page and
  the route guard.

Three facts about the code that shape the contracts:

- The Next button is disabled only when `page === totalPages`. A page past
  `totalPages` therefore keeps Next enabled, and each click moves it further
  away. `NextEnabled` and `MovedNext` state both cases.
- After a successful login, the code stores whatever `data.token` the
  response holds, unchecked. `Flows.LoginSuccessLeadsToUsersList` covers
  both cases. A truthy token shows the list. A missing or empty token is sent
  back to `/login` by the guard.
- The code keeps `page >= 1` (`UsersListPage.Valid`, `RunKeepsPageAtLeastOne`).
  It does not keep `page <= totalPages`.

## Model

| member | source | states |
|---|---|---|
| `Auth.IsPresent` | src/App.jsx:8 | A token is truthy unless it is null, undefined or the empty string |
| `Auth.AuthSession.constructor` | src/App.jsx:13 | The session starts with no token |
| `Auth.AuthSession.Login` | src/pages/LoginPage.jsx:21 | `login(token)` stores exactly the given value, without validating it |
| `Auth.AuthSession.Logout` | src/pages/UsersListPage.jsx:77-78 | `logout` clears the token, which is then not present |
| `Routing.FindExact` | src/App.jsx:14-25 | Returns the first route whose path equals the request, or reports that no route has that path |
| `Routing.FindSplat` | src/App.jsx:24 | Returns the first catch-all route, or reports that there is none |
| `Routing.Select` | src/App.jsx:14-25 | The first route whose path matches is chosen. Only when none matches, the first catch-all is chosen. Nothing is selected only when neither exists |
| `Routing.Render` | src/App.jsx:6-9 | Rendering an element always yields a page or a redirect, never an empty match |
| `Routing.PrivateRouteGuards` | src/App.jsx:6-9 | For any child, `PrivateRoute` shows the child when the token is truthy and redirects to `/login` otherwise |
| `Routing.AppView` | src/App.jsx:11-28 | Every path shows something, and the user list is shown only with a truthy token |
| `Routing.RenderDependsOnlyOnPresence` | src/App.jsx:6-9 | `PrivateRoute` reads the token only through its truthiness |
| `Routing.AppRoutesSelect` | src/App.jsx:15-24 | `/login` mounts the login page, `/users` mounts the guarded list, and every other path mounts the redirect to `/login` |
| `Routing.AppViewCases` | src/App.jsx:8-24 | `/users` with a truthy token shows the list. `/users` with no token or `""` redirects to `/login`. `/login` always shows the login form. Any other path redirects to `/login` |
| `Routing.UsersListIsGuarded` | src/App.jsx:6-23 | The list is on screen if and only if the path is `/users` and the token is truthy |
| `Routing.AppViewDependsOnlyOnPresence` | src/App.jsx:6-9 | Every path matches some route, and the outcome depends only on the path and on whether the token is truthy |
| `Login.Initial` | src/pages/LoginPage.jsx:9-11 | On mount: the error is `""` with no banner, and the fields hold the demo email and password |
| `Login.ShowsError` | src/pages/LoginPage.jsx:35 | The error banner is shown exactly when the error string is non-empty |
| `Login.SubmitStarted` | src/pages/LoginPage.jsx:15 | Before the request goes out, the error is cleared and nothing else changes |
| `Login.SubmitFinished` | src/pages/LoginPage.jsx:16-25 | On success, the token becomes the response's token and navigation goes to `/users`. On failure, the error becomes "Invalid credentials!" and the token and navigation are untouched |
| `Login.Submitted` | src/pages/LoginPage.jsx:13-26 | A whole submission: the banner shows if and only if the login failed; the success and failure outcomes are as above; the fields are kept |
| `Login.SubmissionForgetsOldError` | src/pages/LoginPage.jsx:15-24 | The error after a submission does not depend on any earlier error |
| `Login.SubmitIdempotent` | src/pages/LoginPage.jsx:13-26 | Repeating a submission with the same outcome changes nothing more |
| `Login.LoginPage.constructor` | src/pages/LoginPage.jsx:6-11 | The form's fields start in the initial state over the session's current token |
| `Login.LoginPage.SetEmail` | src/pages/LoginPage.jsx:48 | The email input changes only the email |
| `Login.LoginPage.SetPassword` | src/pages/LoginPage.jsx:61 | The password input changes only the password |
| `Login.LoginPage.HandleLogin` | src/pages/LoginPage.jsx:13-26 | `handleLogin` clears the error, then either calls `login` and navigates or sets the error. Its new state, token included, is `Submitted` of the old state |
| `UsersList.MergeEdits` | src/pages/UsersListPage.jsx:51-55 | Length and order are kept. Each record whose id equals the edited id gets the three edited fields and keeps its id and avatar. Every other record is unchanged. With no record in edit, nothing matches |
| `UsersList.RemoveById` | src/pages/UsersListPage.jsx:66 | Exactly the records with the given id are removed; every other record keeps its multiplicity; nothing changes when no id matches |
| `UsersList.RemoveByIdOverConcat` | src/pages/UsersListPage.jsx:66 | Removal distributes over concatenation, so the survivors keep their original order |
| `UsersList.MergeEditsIdempotent` | src/pages/UsersListPage.jsx:52-54 | Merging the same edits twice equals merging them once |
| `UsersList.MergeEditsKeepsUniqueIds` | src/pages/UsersListPage.jsx:52-54 | A save keeps the ids distinct |
| `UsersList.RemoveByIdKeepsUniqueIds` | src/pages/UsersListPage.jsx:66 | A delete keeps the ids distinct |
| `UsersList.RequestedPage` | src/pages/UsersListPage.jsx:19-25 | The effect requests a page if and only if the token is truthy, and it requests the current page |
| `UsersList.EffectRan` | src/pages/UsersListPage.jsx:19-37 | With no token, the effect redirects to `/login` and fetches nothing. A successful fetch replaces the list and the total page count with the response's. A failed fetch changes nothing. The page and the edit state are never touched |
| `UsersList.EditStarted` | src/pages/UsersListPage.jsx:39-46 | Edit on record R sets `editingUser` to R's id and fills the buffer with exactly R's three editable fields; the list and the pages are unchanged |
| `UsersList.FirstNameTyped` | src/pages/UsersListPage.jsx:103-108 | Changes the first name in the buffer and nothing else |
| `UsersList.LastNameTyped` | src/pages/UsersListPage.jsx:114-119 | Changes the last name in the buffer and nothing else |
| `UsersList.EmailTyped` | src/pages/UsersListPage.jsx:125-127 | Changes the email in the buffer and nothing else |
| `UsersList.EditCancelled` | src/pages/UsersListPage.jsx:138 | No card is in edit mode afterwards. The list, the buffer and the pages are unchanged |
| `UsersList.UpdateFinished` | src/pages/UsersListPage.jsx:48-61 | On success, the length and order are kept, the cards in edit mode receive the buffer's fields, the other cards are unchanged, and edit mode ends. On failure, nothing changes, so the card stays in edit mode |
| `UsersList.DeleteFinished` | src/pages/UsersListPage.jsx:63-71 | On success, the list becomes `RemoveById` of the old list: the remaining records are exactly those without the deleted id, with their multiplicity and order. Nothing but the list changes. On failure, nothing changes |
| `UsersList.PreviousEnabled` | src/pages/UsersListPage.jsx:175 | With `page >= 1`, Previous is enabled exactly when `page > 1` |
| `UsersList.NextEnabled` | src/pages/UsersListPage.jsx:185 | Within the page count, Next is enabled exactly when `page < totalPages`. Past it, Next is always enabled |
| `UsersList.MovedPrevious` | src/pages/UsersListPage.jsx:174-176 | Enabled if and only if `page != 1`, and then it decrements the page. Disabled, it does nothing. It changes nothing but the page and keeps `page >= 1` |
| `UsersList.MovedNext` | src/pages/UsersListPage.jsx:184-186 | Enabled if and only if `page != totalPages`, and then it increments the page. It changes nothing but the page. It keeps `1 <= page <= totalPages` when that held before. Past `totalPages`, it keeps climbing |
| `UsersList.PreviousUndoesNext` | src/pages/UsersListPage.jsx:174-186 | After an enabled Next, Previous is enabled and restores the earlier state |
| `UsersList.AtMostOneCardInEditMode` | src/pages/UsersListPage.jsx:98 | With distinct ids, at most one card shows its edit inputs |
| `UsersList.EditClickSelectsCard` | src/pages/UsersListPage.jsx:39-46 | With distinct ids, clicking Edit on a card puts exactly that card in edit mode |
| `UsersList.StepKeepsUniqueIds` | src/pages/UsersListPage.jsx:32-66 | No handler introduces a duplicate id unless the server sends one |
| `UsersList.RunKeepsPageAtLeastOne` | src/pages/UsersListPage.jsx:10-186 | Starting from a page of at least 1, as on mount, every sequence of events keeps the page at least 1 |
| `UsersList.RunKeepsUniqueIds` | src/pages/UsersListPage.jsx:27-66 | While every fetched page has distinct ids, so does the list after any sequence of events |
| `UsersList.PageMovesChangeOnlyPage` | src/pages/UsersListPage.jsx:174-186 | A sequence of Previous and Next clicks changes only the page |
| `UsersList.EditThenSave` | src/pages/UsersListPage.jsx:39-56 | Edit a card, retype its first name and save successfully. That card then shows the new first name, edit mode ends, and no other card changes |
| `UsersList.UsersListPage.constructor` | src/pages/UsersListPage.jsx:9-17 | Initial state: an empty list, page 1 of 1, no card in edit and an empty buffer |
| `UsersList.UsersListPage.FetchUsersEffect` | src/pages/UsersListPage.jsx:19-37 | Returns the page requested, if any. The new state is `EffectRan` of the old one and the session token |
| `UsersList.UsersListPage.HandleEditClick` | src/pages/UsersListPage.jsx:39-46 | The new state is `EditStarted` of the old |
| `UsersList.UsersListPage.ChangeFirstName` | src/pages/UsersListPage.jsx:103-108 | The new state is `FirstNameTyped` of the old |
| `UsersList.UsersListPage.ChangeLastName` | src/pages/UsersListPage.jsx:114-119 | The new state is `LastNameTyped` of the old |
| `UsersList.UsersListPage.ChangeEmail` | src/pages/UsersListPage.jsx:125-127 | The new state is `EmailTyped` of the old |
| `UsersList.UsersListPage.Cancel` | src/pages/UsersListPage.jsx:138 | The new state is `EditCancelled` of the old |
| `UsersList.UsersListPage.HandleUpdate` | src/pages/UsersListPage.jsx:48-61 | The new state is `UpdateFinished` of the old and the outcome |
| `UsersList.UsersListPage.HandleDelete` | src/pages/UsersListPage.jsx:63-71 | The new state is `DeleteFinished` of the old, the id and the outcome |
| `UsersList.UsersListPage.Previous` | src/pages/UsersListPage.jsx:174-176 | The new state is `MovedPrevious` of the old; `page >= 1` is kept |
| `UsersList.UsersListPage.Next` | src/pages/UsersListPage.jsx:184-186 | The new state is `MovedNext` of the old; `page >= 1` is kept |
| `UsersList.UsersListPage.Logout` | src/pages/UsersListPage.jsx:77-78 | The Logout button sets the token to none and leaves the page's state as it was |
| `Flows.LoginSuccessLeadsToUsersList` | src/pages/LoginPage.jsx:21-22 | After a successful login, navigation goes to `/users`. That shows the list if and only if the returned token is truthy; otherwise the guard redirects to `/login` |
| `Flows.LoginFailureStaysOnLogin` | src/pages/LoginPage.jsx:23-24 | After a failed login, the banner is shown, `/login` still shows the form, and what `/users` shows is unchanged |
| `Flows.LogoutLeadsToLogin` | src/pages/UsersListPage.jsx:19-23 | With the token cleared, the guard and the page's own effect both send the visitor to `/login`, and no fetch is made |

## Left out

- The HTTP requests (login POST, listing GET, update PUT, delete DELETE) and URL construction: each is an input that says success (with its payload) or failure.
- `alert` and `console.error` notifications: output only.
- JSX rendering, styling, the "Page X of Y" label, `e.preventDefault()` and the browser's `required` check on the login inputs.
- react-router mechanics: `Navigate` and `navigate` are a recorded target path, and paths are compared exactly. The router's case-insensitive and trailing-slash-tolerant matching is not modelled.
- The authentication context's implementation (storage, persistence across reloads): src/context/AuthContext is not part of this model. The token is abstract state that `login` sets and `logout` clears.
- `useEffect` scheduling, asynchronous interleaving, and handlers that read a stale `users` or `editingUser` from an earlier render. Each handler is one atomic step over the current state, so out-of-order responses are not captured.
- JavaScript numbers: ids, page and total page count are unbounded integers. Non-integer or non-numeric values from the server are not modelled.
- Fields of a record beyond id, names, email and avatar: the object spread would keep them, and the model has none.
