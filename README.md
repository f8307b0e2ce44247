# Task manager page: a Dafny model of its state machine

The page `NoteManagerPage` lets a user create, list, edit, toggle and delete
tasks kept by a remote task service. Under the markup it is a small
sequential state machine over eight state variables: the cached list
`notes`; the creation form `title`, `description`, `priority` and `completed`;
the error flag `errorAlert`; and the edit session `openModal` with its buffer
`selectedNote`. Every event handler is one transition of that state.

The project models it in four modules:

- `Tasks` (`tasks.dfy`) holds the values. `Note` is a task as the service lists it.
  `Fields` is a task-shaped JavaScript object whose properties may be absent. It is
  used for the edit buffer and for request bodies. `Request` is one of the four
  service calls. `Outcome` is a settled reply: `Ok(payload)` or `Fail`. The module
  also has the pure parts of the handlers: the spread setters of the edit dialog,
  the edit body, the toggled copy, and `notes.find` as a function (`Find`) and as
  a linear search (`FindNote`).
- `PageModel` (`page_model.dfy`) is the state machine on values. A `Page` holds the
  eight variables. Each handler is a function from the page and the server's reply
  to a `Step`: the new page, the request sent (if any), and whether it started a
  `fetchNotes`. `Apply` dispatches one event and `Run` runs a sequence of events.
  `Inv` is what every reachable state satisfies.
- `Component` (`note_manager_page.dfy`) is the class `NoteManagerPage`. It has the
  eight variables as fields and one method per handler. Each method updates the
  fields in the handler's order. It is proved to leave exactly the state, and send
  exactly the request, that its `PageModel` transition gives.
- `Remote` (`remote.dfy`) states an assumption about the service, whose code is
  not part of this model: a PUT with a complete body stores that body's fields under
  the target id and keeps `_id`. It is used only to state what sequences of toggles
  and commits, which always send complete bodies in its lemmas, do to the stored list.

The server is never called. Each handler that awaits a request takes that
request's settled reply as a parameter. `fetchNotes` is called without `await`
after a successful create, delete, edit or toggle. So those handlers only report
that a refresh was started (`refetch`). The refresh is a later transition of its
own (`FetchNotes`), and its failure never reaches the caller's `catch`.

Points of the code's behaviour that the model keeps as written:

- A failed create keeps the typed form values. The resets at
  `NoteManagerPage.jsx:43-46` run only after the POST resolves, and the `catch` at
  `:47-50` only raises the flag.
- A failed refresh after a create is not handled by the create, because the refresh
  is started at `:42` without `await`.
- The form's `completed` flag has no control on the page. It is only ever reset to
  `false`, so every create request sends `completed: false` (`Inv`, `ReachableRequests`).
- The edit dialog's setters spread `selectedNote` even when it is `null`. The buffer
  is then an object with just the edited property and no `_id`. A commit of such a
  buffer is a PUT to the path segment `undefined`, so `PutTask.target` is an
  `Option`. A commit with no buffer at all throws a TypeError on `selectedNote._id`
  before sending anything. The flag is raised and the dialog still closes.

## Model

| member | source | states |
|---|---|---|
| `PageModel.Initial` | Frontend/src/pages/NoteManagerPage.jsx:12-19 | the mount state: empty cache, form at its defaults (`''`, `''`, `low`, `false`), no error, no session; it satisfies `Inv` |
| `Component.NoteManagerPage.constructor` | Frontend/src/pages/NoteManagerPage.jsx:12-19 | the component's fields start at `Initial()` |
| `PageModel.Raise` | Frontend/src/pages/NoteManagerPage.jsx:17 | raising the error flag sets it and changes no other state variable |
| `PageModel.RaiseIdempotent` | Frontend/src/pages/NoteManagerPage.jsx:17 | the flag is one boolean: raising it twice gives the same state as raising it once |
| `PageModel.DismissError` | Frontend/src/pages/NoteManagerPage.jsx:196-197 | dismissal clears the flag and changes nothing else |
| `Component.NoteManagerPage.DismissError` | Frontend/src/pages/NoteManagerPage.jsx:196-197 | the method's new state is `DismissError` of the old one |
| `PageModel.FetchNotes` | Frontend/src/pages/NoteManagerPage.jsx:28-36 | sends the list request; `Ok(list)` makes the cache exactly `list`, whatever it held, and changes nothing else; `Fail` leaves the cache and raises the flag |
| `Component.NoteManagerPage.FetchNotes` | Frontend/src/pages/NoteManagerPage.jsx:28-36 | the method sends `GetTasks` and leaves the state `FetchNotes` gives |
| `PageModel.CreateBody` | Frontend/src/pages/NoteManagerPage.jsx:40 | the create body is exactly the four form fields, with no `_id` |
| `PageModel.CreateNote` | Frontend/src/pages/NoteManagerPage.jsx:38-51 | always sends the form; success resets the form to its defaults and starts a refresh; failure keeps the typed values and only raises the flag; the cache and the session are never touched |
| `Component.NoteManagerPage.CreateNote` | Frontend/src/pages/NoteManagerPage.jsx:38-51 | the method's request, refresh flag and new state are those of `CreateNote` |
| `PageModel.DeleteNote` | Frontend/src/pages/NoteManagerPage.jsx:53-61 | sends a delete for the id; success changes no state and starts a refresh; failure only raises the flag and leaves the cache unchanged |
| `Component.NoteManagerPage.DeleteNote` | Frontend/src/pages/NoteManagerPage.jsx:53-61 | the method's request, refresh flag and new state are those of `DeleteNote` |
| `Tasks.ObjectOf` | Frontend/src/pages/NoteManagerPage.jsx:64 | a listed task seen as an object has every property, and reading it back gives the same task |
| `Tasks.NoteOf` | Frontend/src/pages/NoteManagerPage.jsx:95 | reads a complete object, such as the toggle's body, back as a task, and does so exactly when every property is present; only `Remote` uses it, to state what the service stores |
| `PageModel.OpenModal` | Frontend/src/pages/NoteManagerPage.jsx:63-66 | opening makes the buffer the chosen task, replacing any earlier buffer without a merge, and opens the dialog; nothing else changes |
| `Component.NoteManagerPage.OpenModal` | Frontend/src/pages/NoteManagerPage.jsx:63-66 | the method's new state is `OpenModal` of the old one |
| `PageModel.CloseModal` | Frontend/src/pages/NoteManagerPage.jsx:68-71 | closing drops the buffer and closes the dialog; nothing else changes |
| `PageModel.CloseModalIdempotent` | Frontend/src/pages/NoteManagerPage.jsx:68-71 | closing twice is the same as closing once |
| `Component.NoteManagerPage.CloseModal` | Frontend/src/pages/NoteManagerPage.jsx:68-71 | the method's new state is `CloseModal` of the old one |
| `Tasks.EditBody` | Frontend/src/pages/NoteManagerPage.jsx:75-80 | the commit body has no `_id` and is otherwise exactly the buffer's title, description, priority and completed |
| `PageModel.EditNote` | Frontend/src/pages/NoteManagerPage.jsx:73-89 | always ends with the dialog closed and no buffer, on success and on failure; with a buffer, sends its body to the buffer's `_id`, and only success starts a refresh; with no buffer, sends nothing and raises the flag; the flag rises exactly when there was no buffer or the request failed; the cache and form are untouched |
| `Component.NoteManagerPage.EditNote` | Frontend/src/pages/NoteManagerPage.jsx:73-89 | the method's request, refresh flag and new state are those of `EditNote` |
| `Tasks.Find` | Frontend/src/pages/NoteManagerPage.jsx:94 | the lookup finds nothing exactly when no cached task has the id; a found task is cached and has the id |
| `Tasks.FindIsFirst` | Frontend/src/pages/NoteManagerPage.jsx:94 | the lookup returns the first cached task with the id |
| `Tasks.FindAt` | Frontend/src/pages/NoteManagerPage.jsx:94 | a found task sits at the first position whose id matches |
| `Tasks.FindNote` | Frontend/src/pages/NoteManagerPage.jsx:94 | the linear search returns what `Find` specifies |
| `Tasks.Toggled` | Frontend/src/pages/NoteManagerPage.jsx:95 | the toggle copy has `completed` negated and every other field, `_id` included, equal |
| `Tasks.ToggledTwice` | Frontend/src/pages/NoteManagerPage.jsx:95 | toggling a copy twice gives back the original task |
| `PageModel.CompletedChange` | Frontend/src/pages/NoteManagerPage.jsx:92-102 | sends the first cached task with the id, flag flipped, to that id; an id missing from the cache sends nothing and raises the flag; only the flag can change; only success starts a refresh |
| `Component.NoteManagerPage.CompletedChange` | Frontend/src/pages/NoteManagerPage.jsx:92-102 | the method, which runs the linear search, gives the request, refresh flag and state of `CompletedChange` |
| `PageModel.FormChange` | Frontend/src/pages/NoteManagerPage.jsx:104-106 | each form input replaces its own field and nothing else (title at line 124, description at line 134, priority here) |
| `Component.NoteManagerPage.PriorityChange` | Frontend/src/pages/NoteManagerPage.jsx:104-106 | the method's new state is the priority change of `FormChange` |
| `Component.NoteManagerPage.TitleChange` | Frontend/src/pages/NoteManagerPage.jsx:124 | the method's new state is the title change of `FormChange` |
| `Component.NoteManagerPage.DescriptionChange` | Frontend/src/pages/NoteManagerPage.jsx:134 | the method's new state is the description change of `FormChange` |
| `Tasks.Spread` | Frontend/src/pages/NoteManagerPage.jsx:218 | `{ ...buffer, key: value }` holds the new value and agrees with the old buffer on every other property, `_id` included; a null buffer contributes nothing |
| `PageModel.EditBuffer` | Frontend/src/pages/NoteManagerPage.jsx:216-252 | each dialog setter (title, description, priority, completed) replaces exactly one buffer property and keeps every other one, `_id` included; on a null buffer every other property stays absent; the cache, the form, the flag and the dialog state are untouched |
| `Component.NoteManagerPage.BufferChange` | Frontend/src/pages/NoteManagerPage.jsx:216-252 | the method's new state is `EditBuffer` of the old one |
| `PageModel.Apply` | Frontend/src/pages/NoteManagerPage.jsx:28-106 | every handler keeps `Inv`: the form's completed flag stays false, and the dialog is never open without a buffer |
| `PageModel.Run` | Frontend/src/pages/NoteManagerPage.jsx:28-106 | any sequence of events from a state satisfying `Inv` ends in a state satisfying `Inv` |
| `PageModel.ReachableRequests` | Frontend/src/pages/NoteManagerPage.jsx:38-89 | from mount, a create always sends `completed: false`, and a commit of an open dialog always sends a request |
| `Remote.Overwrite` | Frontend/src/pages/NoteManagerPage.jsx:75-80 | under the assumed service behaviour, the body sent here keeps the stored `_id`, and a body with every property replaces the task by it |
| `Remote.ApplyPut` | Frontend/src/pages/NoteManagerPage.jsx:75 | a PUT overwrites the tasks with the target id and keeps every other task and the order; a missing target matches no task |
| `Remote.CommitStoresBuffer` | Frontend/src/pages/NoteManagerPage.jsx:73-89 | committing a complete buffer stores exactly its fields in the task with its `_id`, and no other task changes |
| `Remote.PutIsIdempotent` | Frontend/src/pages/NoteManagerPage.jsx:75 | repeating a PUT with a complete body, as the toggle's and a full commit's are, changes nothing more than the first one did |
| `Remote.ToggleShowsFlip` | Frontend/src/pages/NoteManagerPage.jsx:92-102 | once the service applies a toggle, the refreshed list's first task with that id is the flipped copy |
| `Remote.PutBackRestores` | Frontend/src/pages/NoteManagerPage.jsx:92-102 | storing the original task after its flipped copy gives back the stored list, when the store holds one copy of the task |
| `Remote.ToggleTwiceRestores` | Frontend/src/pages/NoteManagerPage.jsx:92-102 | two toggles of one task, each followed by a refresh, when the store holds one copy of the task: the second sends the original task back, and the stored list ends as it was |
| `Remote.StaleToggleLosesUpdate` | Frontend/src/pages/NoteManagerPage.jsx:92-102 | two toggles with no refresh in between send the same body, so the task stays flipped: the lost update of back-to-back clicks |

## Left out

- HTTP transport: axios, the host and URLs, and decoding `response.data.data`. Each reply is a parameter. A list that decodes to something other than an array is not modelled.
- Concurrency: unawaited `fetchNotes` calls whose replies interleave, and toggles or commits in flight at the same time. Events run one at a time. `StaleToggleLosesUpdate` shows only the sequential form of the lost update.
- React's batched, asynchronous state updates. Every handler reads its state before it sets anything, so applying the setters at once gives the same state.
- Rendering: the markup, icons, colours, strike-through, the `required` markers, and the snackbar's 6-second timer. The timer's effect is the `DismissError` event.
- Authentication: `useAuth`, the `useEffect` that fetches on mount, and the redirect when not signed in. The redirect uses `Navigate`, which the file never imports.
- `console.log` and `console.error` logging.
- Properties a stored task may have beyond `_id`, title, description, priority and completed. The toggle's spread would send them back too.
- Priorities other than `low`, `medium` and `high`. Every control on the page offers only these three.
- `Remote.Overwrite`: the service's own code is not part of this model. The service is assumed to store a complete body's fields under the target id and keep `_id`. What it does with a partial body (a commit after an edit of a null buffer) is not modelled; the body of `Overwrite` picks one answer, and no contract or lemma depends on it: every `Remote` lemma takes a complete body, and `PutIsIdempotent` requires one.
