/** The task manager page as a sequential state machine: its eight state
    variables and one transition per event handler. The server's reply to the
    handler's request is a parameter of the transition; a `fetchNotes` that a
    handler starts without awaiting it is reported in the step and settles later
    as a transition of its own. */
module PageModel {
  import opened Tasks

  /** The page's state variables: the cached list, the creation form, the error
      flag and the edit session. */
  datatype Page = Page(
    notes: seq<Note>,
    title: string,
    description: string,
    priority: Priority,
    completed: bool,
    errorAlert: bool,
    openModal: bool,
    selectedNote: Option<Fields>)

  /** What one handler does: the state it leaves, the request it sends, if any,
      and whether it starts an unawaited `fetchNotes`. */
  datatype Step = Step(page: Page, sent: Option<Request>, refetch: bool)

  /** The creation form holds its defaults. */
  predicate FormIsClear(p: Page) {
    p.title == "" && p.description == "" && p.priority == Low && !p.completed
  }

  /** What every reachable state satisfies: no control sets the form's completed
      flag, and the dialog is never open without a buffer. */
  predicate Inv(p: Page) {
    !p.completed && (p.openModal ==> p.selectedNote.Some?)
  }

  /** The state after mount: nothing cached, form at its defaults, no error, no session. */
  function Initial(): (p: Page)
    ensures Inv(p) && FormIsClear(p)
    ensures p.notes == [] && !p.errorAlert && !p.openModal && p.selectedNote.None?
  {
    Page([], "", "", Low, false, false, false, None)
  }

  /** `setErrorAlert(true)`: the flag goes up and nothing else moves. */
  function Raise(p: Page): (r: Page)
    ensures r.errorAlert
    ensures r.(errorAlert := p.errorAlert) == p
  {
    p.(errorAlert := true)
  }

  /** The flag is a single boolean: a second failure changes nothing more. */
  lemma RaiseIdempotent(p: Page)
    ensures Raise(Raise(p)) == Raise(p)
  {
  }

  /** The snackbar's `onClose`, on timeout or when the alert is closed. */
  function DismissError(p: Page): (r: Page)
    ensures !r.errorAlert
    ensures r.(errorAlert := p.errorAlert) == p
  {
    p.(errorAlert := false)
  }

  /** `fetchNotes`: a successful list replaces the cache outright, whatever it
      held; a failure leaves the cache and raises the flag. */
  function FetchNotes(p: Page, reply: Outcome<seq<Note>>): (r: Step)
    ensures r.sent == Some(GetTasks) && !r.refetch
    ensures reply.Ok? ==> r.page.notes == reply.payload && r.page.(notes := p.notes) == p
    ensures reply.Fail? ==> r.page == Raise(p)
  {
    match reply
    case Ok(list) => Step(p.(notes := list), Some(GetTasks), false)
    case Fail => Step(Raise(p), Some(GetTasks), false)
  }

  /** The body of the create request: exactly the four form fields. */
  function CreateBody(p: Page): (b: Fields)
    ensures b.id == None
    ensures b.title == Some(p.title) && b.description == Some(p.description)
    ensures b.priority == Some(p.priority) && b.completed == Some(p.completed)
  {
    Fields(None, Some(p.title), Some(p.description), Some(p.priority), Some(p.completed))
  }

  /** `handleCreateNote`: the form is sent whatever it holds; only a success
      clears the form and starts a refresh; a failure keeps what was typed and
      raises the flag. The cache is never patched locally. */
  function CreateNote(p: Page, reply: Outcome<()>): (r: Step)
    ensures r.sent == Some(PostTask(CreateBody(p)))
    ensures r.page.notes == p.notes
    ensures r.page.openModal == p.openModal && r.page.selectedNote == p.selectedNote
    ensures r.refetch <==> reply.Ok?
    ensures reply.Ok? ==> FormIsClear(r.page) && r.page.errorAlert == p.errorAlert
    ensures reply.Fail? ==> r.page == Raise(p)
  {
    var sent := Some(PostTask(CreateBody(p)));
    match reply
    case Ok(_) => Step(p.(title := "", description := "", priority := Low, completed := false), sent, true)
    case Fail => Step(Raise(p), sent, false)
  }

  /** `handleDeleteNote`: the cache is never patched locally; a success starts a
      refresh, a failure only raises the flag. */
  function DeleteNote(p: Page, noteId: string, reply: Outcome<()>): (r: Step)
    ensures r.sent == Some(DeleteTask(noteId))
    ensures r.refetch <==> reply.Ok?
    ensures reply.Ok? ==> r.page == p
    ensures reply.Fail? ==> r.page == Raise(p)
  {
    match reply
    case Ok(_) => Step(p, Some(DeleteTask(noteId)), true)
    case Fail => Step(Raise(p), Some(DeleteTask(noteId)), false)
  }

  /** `handleOpenModal`: the chosen task becomes the buffer, replacing any earlier
      buffer outright, and the dialog opens. */
  function OpenModal(p: Page, note: Note): (r: Page)
    ensures r.openModal && r.selectedNote == Some(ObjectOf(note))
    ensures r.(openModal := p.openModal, selectedNote := p.selectedNote) == p
  {
    p.(selectedNote := Some(ObjectOf(note)), openModal := true)
  }

  /** `handleCloseModal`: the buffer is dropped and the dialog closes. */
  function CloseModal(p: Page): (r: Page)
    ensures !r.openModal && r.selectedNote.None?
    ensures r.(openModal := p.openModal, selectedNote := p.selectedNote) == p
  {
    p.(selectedNote := None, openModal := false)
  }

  lemma CloseModalIdempotent(p: Page)
    ensures CloseModal(CloseModal(p)) == CloseModal(p)
  {
  }

  /** `handleEditNote`: with a buffer, its fields (never its `_id`) are PUT to the
      buffer's `_id`; without one, reading `selectedNote._id` throws before any
      request. Either way the session ends closed, success or failure, and the
      cache is not patched locally. */
  function EditNote(p: Page, reply: Outcome<()>): (r: Step)
    ensures !r.page.openModal && r.page.selectedNote.None?
    ensures r.page == CloseModal(if r.page.errorAlert then Raise(p) else p)
    ensures r.page.errorAlert <==> p.errorAlert || p.selectedNote.None? || reply.Fail?
    ensures p.selectedNote.None? ==> r.sent.None? && !r.refetch
    ensures p.selectedNote.Some? ==>
              r.sent == Some(PutTask(p.selectedNote.value.id, EditBody(p.selectedNote.value)))
              && (r.refetch <==> reply.Ok?)
  {
    match p.selectedNote
    case None => Step(CloseModal(Raise(p)), None, false)
    case Some(buffer) =>
      var sent := Some(PutTask(buffer.id, EditBody(buffer)));
      match reply
      case Ok(_) => Step(CloseModal(p), sent, true)
      case Fail => Step(CloseModal(Raise(p)), sent, false)
  }

  /** `handleCompletedChange`: the first cached task with the id is sent back
      with its flag flipped and every other field kept; an id missing from the
      cache throws before any request and raises the flag. Only the flag of the
      page can change. */
  function CompletedChange(p: Page, noteId: string, reply: Outcome<()>): (r: Step)
    ensures r.page.(errorAlert := p.errorAlert) == p
    ensures Find(p.notes, noteId).None? ==> r.sent.None? && !r.refetch && r.page.errorAlert
    ensures Find(p.notes, noteId).Some? ==>
              r.sent == Some(PutTask(Some(noteId), ObjectOf(Toggled(Find(p.notes, noteId).value))))
              && (r.refetch <==> reply.Ok?)
              && (r.page.errorAlert <==> p.errorAlert || reply.Fail?)
  {
    match Find(p.notes, noteId)
    case None => Step(Raise(p), None, false)
    case Some(noteToUpdate) =>
      var sent := Some(PutTask(Some(noteId), ObjectOf(Toggled(noteToUpdate))));
      match reply
      case Ok(_) => Step(p, sent, true)
      case Fail => Step(Raise(p), sent, false)
  }

  /** The creation form's inputs: title, description and the priority radio group. */
  datatype FormEdit = TypeTitle(title: string) | TypeDescription(description: string) | ChoosePriority(priority: Priority)

  /** The form's `onChange` setters and `handlePriorityChange`: one form field
      takes the new value and nothing else changes. */
  function FormChange(p: Page, e: FormEdit): (r: Page)
    ensures e.TypeTitle? ==> r.title == e.title && r.(title := p.title) == p
    ensures e.TypeDescription? ==> r.description == e.description && r.(description := p.description) == p
    ensures e.ChoosePriority? ==> r.priority == e.priority && r.(priority := p.priority) == p
  {
    match e
    case TypeTitle(v) => p.(title := v)
    case TypeDescription(v) => p.(description := v)
    case ChoosePriority(v) => p.(priority := v)
  }

  /** The edit dialog's `onChange` setters: the buffer becomes the spread of the
      old buffer with one property replaced; the cache, the form, the flag and
      the dialog's open state are untouched. */
  function EditBuffer(p: Page, e: Edit): (r: Page)
    ensures r.(selectedNote := p.selectedNote) == p
    ensures r.selectedNote.Some? && Carries(r.selectedNote.value, e)
    ensures Without(r.selectedNote.value, e) == Without(if p.selectedNote.Some? then p.selectedNote.value else Empty, e)
  {
    p.(selectedNote := Some(Spread(p.selectedNote, e)))
  }

  /** One event the page reacts to; a reply is the settled outcome of the
      request that event's handler sends. */
  datatype Action =
    | Fetched(list: Outcome<seq<Note>>)
    | Create(reply: Outcome<()>)
    | Delete(noteId: string, reply: Outcome<()>)
    | Open(note: Note)
    | Close
    | Commit(reply: Outcome<()>)
    | Toggle(noteId: string, reply: Outcome<()>)
    | Form(formEdit: FormEdit)
    | Buffer(edit: Edit)
    | Dismiss

  /** Dispatches an event to its handler; handlers that send nothing leave no request. */
  function Apply(p: Page, a: Action): (r: Step)
    ensures Inv(p) ==> Inv(r.page)
  {
    match a
    case Fetched(list) => FetchNotes(p, list)
    case Create(reply) => CreateNote(p, reply)
    case Delete(noteId, reply) => DeleteNote(p, noteId, reply)
    case Open(note) => Step(OpenModal(p, note), None, false)
    case Close => Step(CloseModal(p), None, false)
    case Commit(reply) => EditNote(p, reply)
    case Toggle(noteId, reply) => CompletedChange(p, noteId, reply)
    case Form(e) => Step(FormChange(p, e), None, false)
    case Buffer(e) => Step(EditBuffer(p, e), None, false)
    case Dismiss => Step(DismissError(p), None, false)
  }

  /** The state after a sequence of events, each run to completion. */
  function Run(p: Page, actions: seq<Action>): (r: Page)
    ensures Inv(p) ==> Inv(r)
    decreases |actions|
  {
    if actions == [] then p else Run(Apply(p, actions[0]).page, actions[1..])
  }

  /** From mount on, whatever events happened, a create request never marks the
      new task completed, and committing an open dialog always reaches the server. */
  lemma ReachableRequests(actions: seq<Action>, reply: Outcome<()>)
    ensures CreateNote(Run(Initial(), actions), reply).sent.value.body.completed == Some(false)
    ensures Run(Initial(), actions).openModal ==> EditNote(Run(Initial(), actions), reply).sent.Some?
  {
  }
}
