# Kanban board client: decision rules of the browser script

This project models the decision rules inside the board's browser script,
`frontend/js/script.js`. The script logs a user in, keeps the session in
`localStorage`, fetches the tasks and the user directory from the REST API,
renders the tasks into three lists ("to-do", "in-progress", "done"), and sends
create, update, delete, bulk-clear and status-change requests.

The DOM, `fetch`, the dialogs and navigation are replaced by plain values:

- a task list, a user list and a key-to-string storage map are inputs;
- the answer of `confirm` is a `bool`;
- a response is either a network failure or a status code, plus a body kind where it matters;
- a redirect is a returned page name.

What is stateful in the script is stateful here:

- `Session.LocalStorage` is a class whose `items` map is updated in place by
  `SetItem` and `RemoveItem`.
- `Board.BoardPage` holds the three lists, the user directory, the assignee
  selector's options and the display state of the clear-column buttons. Its
  methods rebuild them with the same loops the script runs.

The pure rules are functions:

- the assignee label, the delete and clear visibility, and the column a status maps to;
- the request builders.

Each request builder is proved against `Requests.Route`, an independent
reading of a request (verb, URL, body) as the API action it asks for.
`Route` follows the endpoint list of the API: `POST /tasks`, `PUT /tasks/{id}`,
`PATCH /tasks/{id}/status`, `DELETE /tasks/{id}` and `DELETE /tasks?status=`.
Every builder is shown to round-trip through it.

Files:

- `wrappers.dfy`: `Option`.
- `js_strings.dfy`: truthiness, `indexOf`, and `replace` with a string pattern.
- `session.dfy`: storage, login, logout and the page-load gates.
- `cards.dfy`: `createTaskElement`.
- `board.dfy`: the board page, with the specification of the column partition.
- `requests.dfy`: the request builders and `Route`.
- `responses.dfy`: how each mutating handler reacts to a status code.

Behaviour of the code, as modelled:

- **Statuses outside the three lists.** A task whose status is not exactly
  "to-do", "in-progress" or "done" is rendered into no list.
- **The response status of `fetchAndRenderTasks` is never consulted.**
  - A JSON body that is not a list still reaches `renderTasks`. That function
    empties the lists and then fails, so the lists end up empty and an alert is shown.
  - A body that is not JSON leaves the lists as they were.
- **Only the mutating handlers end the session on a 401.** A 401 from
  `fetchUsers` or `fetchAndRenderTasks` only alerts; neither redirects.
- **`redirectToLogin` removes only `jwtToken` and `currentUser`.** It leaves
  `userRole` and `userId` in storage. After a logout, the delete and clear
  rules still read the old role and id.
- **`createdBy` is compared through `toString()`.** An embedded creator object
  reads as "[object Object]". An embedded `assignedTo` object without a
  username is looked up with strict equality against string ids. That lookup
  never matches, so the label is "Não Atribuído (ID não encontrado)".
- **The login handler's success path ends in an error.** It writes the four
  keys and sets the location to the board. It then calls
  `fetchAndRenderTasks`, which is declared only inside the board-page branch.
  The resulting ReferenceError is caught, and the connection-error text is
  shown while the page navigates away.
- **A login answer without a user locks the login page.** A 2xx answer whose
  `user` is missing stores the token, the text "undefined" as the current
  user, and the role. Reading `data.user.id` then throws, so there is no
  navigation and the connection-error text shows. From then on the login
  page, which parses the stored user only after a truthy token, throws on
  load whenever the token is non-empty, so its form handler is not attached.
  The board page parses the stored user whatever the token, and throws on
  every load. Its logout listener is attached before that read, so on a
  board page that has a `#logoutButton` a logout click removes the stored
  "undefined" and the login page works again. A `null` user stores "null"
  and only leaves the login form showing.
- **`updateTaskStatus` is reached only from `drop`.** `drop` (lines 372-384) is
  declared but attached to no element; the live drop listener (line 555)
  builds the same PATCH inline. `Requests.UpdateTaskStatusRequest` and the
  `UpdateStatus` handler of `Responses.React` therefore describe code that
  no page event runs.
- **`clearTasksByStatus` with no status throws.** It reads the misspelled
  identifier `confimationMessage` before `confirm` is reached, so no request
  is sent (see Findings).

## Model

| member | source | states |
|---|---|---|
| `Session.LocalStorage.SetItem` | frontend/js/script.js:52-55 | `setItem` maps the key to the value and leaves every other key as it was |
| `Session.LocalStorage.RemoveItem` | frontend/js/script.js:17-18 | `removeItem` deletes exactly that key |
| `Session.RedirectToLogin` | frontend/js/script.js:16-20 | removes `jwtToken` and `currentUser` only; `userRole` and `userId` read the same afterwards; navigates to login.html |
| `Session.ParseStoredUser` | frontend/js/script.js:13 | `getCurrentUser` throws exactly on the stored text "undefined", and is falsy exactly when the key is missing or holds a falsy JSON text |
| `Session.SubmitLogin` | frontend/js/script.js:34-66 | success writes token, current user, role and user id, navigates to index.html and still shows the connection error; a 2xx answer without a user writes token, "undefined" or "null", and role, does not navigate and shows the connection error; a rejection shows the server's message or "Erro ao fazer login." and changes no storage; no connection shows the connection error |
| `Session.LoginPageLoadOutcome` | frontend/js/script.js:24-28 | the login page goes to the board iff the session is present, halts iff a non-empty token sits beside the stored "undefined", and otherwise shows the form (the user is parsed only after a truthy token) |
| `Session.OpenBoardPage` | frontend/js/script.js:76-84 | the board halts iff the stored user is "undefined", shows iff the session is present, and otherwise logs out and goes to login.html; storage changes only in that last case |
| `Session.LogoutClosesBoard` | frontend/js/script.js:16-28 | after `redirectToLogin` the board gate fails and the login page shows its form, so there is no redirect loop |
| `Session.LoginOpensBoard` | frontend/js/script.js:52-55 | a login storing a non-empty token and a truthy user passes both page gates |
| `Session.UserlessLoginLocksOut` | frontend/js/script.js:52-55 | a 2xx answer without a user never yields a session and leaves the user id as it was; with a missing user and a non-empty token the login page halts on load, with a null user it shows the form; after a logout the login page shows its form again |
| `Session.LoginThenLogoutKeepsRole` | frontend/js/script.js:16-20 | logout after login equals the earlier storage without the session keys, plus the new role and user id; the role and id of that login remain readable |
| `Cards.FindUser` | frontend/js/script.js:156 | `allUsers.find` gives the first user with that id, or none exists |
| `Cards.AssigneeLabel` | frontend/js/script.js:151-159 | no or empty assignee gives "Não Atribuído"; an object with a username gives that username; an object without one gives the not-found text; an id gives the username of the first user with that id, or the not-found text when no user has it |
| `Cards.DeleteButtonVisible` | frontend/js/script.js:179-197 | the delete control is shown iff the stored role is "admin" or the stored user id equals the creator's `toString()`; a missing or empty creator never counts as creator |
| `Cards.CreateTaskElement` | frontend/js/script.js:145-198 | the card carries the task's id and title; an absent or empty description reads "Sem descrição"; an unassigned task reads "Não Atribuído"; an embedded assignee shows its username, or the not-found text without one; an empty id reads "Não Atribuído"; a non-empty id shows the first listed user with it, or the not-found text; the delete control shows iff the stored role is "admin" or the stored user id equals a truthy creator's `toString()` |
| `Cards.AssignedIdShowsUsername` | frontend/js/script.js:151-159 | with no earlier duplicate id, a task assigned to a listed user's id shows that user's name |
| `Board.ColumnFor` | frontend/js/script.js:267-273 | a status maps to the list whose status it equals, and to none when it equals no list's status |
| `Board.Indices` | frontend/js/script.js:265-274 | the positions selected for a list are increasing and are exactly those whose status maps to it |
| `Board.ColumnIsSelection` | frontend/js/script.js:260-275 | a rendered list holds exactly the cards of the tasks with its status, in input order |
| `Board.PartitionCoversTasks` | frontend/js/script.js:265-274 | the three lists and the dropped tasks together account for every task exactly once |
| `Board.InIndicesIff` | frontend/js/script.js:265-274 | a task is selected for a list iff its status maps to that list |
| `Board.EachTaskInItsOwnColumn` | frontend/js/script.js:265-274 | a task is in the to-do, in-progress or done list iff its status is exactly that string; it is dropped iff its status is none of the three |
| `Board.DropStatusOfList` | frontend/js/script.js:563 | each list id, with "-list" replaced, gives back that list's status |
| `Board.DropLandsInTargetColumn` | frontend/js/script.js:555-577 | a task re-fetched with the status a drop on a list sent renders in that list and in no other |
| `Board.ClearButtonsVisible` | frontend/js/script.js:417-430 | the clear buttons are shown iff the stored role is exactly "admin"; whoever sees them also sees every delete control |
| `Board.RoleRulesSurviveLogout` | frontend/js/script.js:16-20 | the clear and delete visibility rules read the same after `redirectToLogin` as before it |
| `Board.AssigneeOptionRoundTrip` | frontend/js/script.js:134-141 | picking any option of the filled selector sends its value (the empty one as null); the task that comes back shows the picked option's text: the sentinel as "Não Atribuído", a user's option as that user's name when no earlier user shares the id |
| `Board.BoardPage.constructor` | frontend/js/script.js:92-110 | the page starts with an empty user directory and the selector and buttons it is given |
| `Board.BoardPage.PopulateAssignedToSelect` | frontend/js/script.js:134-141 | the selector ends up with 1 + \|allUsers\| options: ("", "Não Atribuído") first, then (id, username) per user in order |
| `Board.BoardPage.RenderTasks` | frontend/js/script.js:260-275 | every earlier card is gone; each list equals the partition specification of the given tasks |
| `Board.BoardPage.SetupUIBasedOnRole` | frontend/js/script.js:417-430 | every clear-column button's display is set to the admin rule, and the number of buttons is unchanged |
| `Board.BoardPage.FetchUsers` | frontend/js/script.js:115-131 | an OK JSON list replaces the directory and rebuilds the selector; anything else alerts and changes nothing; there is no redirect |
| `Board.BoardPage.FetchAndRenderTasks` | frontend/js/script.js:278-315 | the status code is ignored; a task list is rendered; other JSON empties the lists and alerts; a non-JSON body or a network failure alerts and keeps the lists; the clear buttons are then set by role |
| `JsStrings.IndexOfFrom` | frontend/js/script.js:563 | the first occurrence of the pattern at or after `from`, or none occurs there (the search inside `replace`) |
| `Requests.SaveTaskRequest` | frontend/js/script.js:479-509 | a non-empty id gives PUT /tasks/{id}, an empty one POST /tasks; the body has title, description, assignedTo (an empty selection is null) and status, and `Route` reads it back as that replace or create |
| `Requests.DeleteTaskRequest` | frontend/js/script.js:208-239 | a request is made iff the user confirms; it is a DELETE without a body and `Route` reads it back as deleting that task |
| `Requests.UpdateTaskStatusRequest` | frontend/js/script.js:387-397 | PATCH /tasks/{id}/status with {status}; `Route` reads it back as setting that task's status (reached only from the unattached `drop`) |
| `Requests.ClearRequest` | frontend/js/script.js:333-345 | the bulk DELETE without a body, with a `?status=` query when a status is given; `Route` reads the filter back |
| `Requests.ClearTasksByStatus` | frontend/js/script.js:318-336 | throws on the misspelled identifier iff the status is falsy; otherwise asks about that column and sends DELETE /tasks?status=<status> iff confirmed |
| `Requests.ClearTasksByStatusIntended` | frontend/js/script.js:318-336 | never throws; the clear-all branch asks about every column; sends iff confirmed; `Route` reads a falsy status as an unfiltered delete; agrees with the code whenever a status is given |
| `Requests.DropStatusRemovesFirstSuffix` | frontend/js/script.js:563 | `replace('-list', '')` leaves an id unchanged iff it contains no "-list"; otherwise re-inserting "-list" at the first occurrence gives the id back |
| `Requests.DropStatusOfListId` | frontend/js/script.js:563 | `replace('-list', '')` on status + "-list" gives the status back when the status does not itself contain "-list" |
| `Requests.DropRequest` | frontend/js/script.js:555-577 | a request is made iff the dragged card is on the page; it is a PATCH that `Route` reads as setting that task's status to the list's status |
| `Requests.DropOnDoneList` | frontend/js/script.js:555-577 | dropping task "1" on the done list sends PATCH /tasks/1/status with {status: "done"} |
| `Responses.React` | frontend/js/script.js:241-590 | across the save (511-522), delete (241-256), clear (347-363), status (399-413) and drop (579-590) handlers: redirect iff 401 (the status handler is reached only from the unattached `drop`); only the form closes the modal, on success; all but drop re-fetch iff OK and drop re-fetches iff not OK; success alerts only for delete and clear; a 401 alerts only for save and drop; other failures always alert |

## Findings

| source | as written | input that shows it | evidently intended | confidence | as-written member | corrected member |
|---|---|---|---|---|---|---|
| frontend/js/script.js:326 | the clear-all branch appends to the undeclared `confimationMessage`, which throws a ReferenceError before `confirm` | `clearTasksByStatus(null)`, e.g. a clear button without `data-status` | ask whether to clear the tasks of every column, then send DELETE /tasks | medium, not executed | `Requests.ClearTasksByStatus` | `Requests.ClearTasksByStatusIntended` |

## Left out

- Network and serialisation are left out: `fetch`, the `Authorization` and `Content-Type` headers, and `JSON.stringify` of bodies. A request is a (verb, URL, body) value.
- Response bodies are left out beyond their kind. Mutating handlers are assumed to receive JSON. The text of alerts built from a body's `message` is not modelled.
- For `/users`, a JSON body that is not a list is not modelled.
- DOM construction is left out: the card's HTML (title and description are interpolated unescaped), event listeners and `dataTransfer`.
- Dialogs and navigation are left out: `alert`, `console` and `window.location`. `confirm` is a boolean input, and a redirect is a returned page name.
- `openTaskModal` and `closeTaskModal` are left out as presentation, with the add-task buttons that open the form. So is the form filling at line 444: it sets the selector to an embedded assignee object.
- The greeting with the user's name is left out as presentation.
- `allowDrop` and `drop` are left out: they are declared but never attached to any element.
- The drop handler's optimistic move of the card is left out: `list.appendChild`, and the lookup of the dragged card by id. Whether that card is found is the input `cardFound`.
- Races between overlapping asynchronous calls are left out. This includes the page start, where `fetchUsers` and `fetchAndRenderTasks` both run, and whichever finishes first decides the assignee labels.
- `JSON.parse` of the stored current user is modelled through the falsy texts `null`, `false`, `0`, `-0` and `""`, and the text "undefined", which throws. Other spellings of a falsy value, and other stored text that is not JSON, are not modelled.
- `setItem` stringifies its argument, so an undefined role would be stored as "undefined". `LoginOk` carries the strings as stored.
- Ids are strings. Numeric ids compared with `===` are not modelled.
