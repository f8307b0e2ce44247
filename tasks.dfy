/** Values the task manager page works with: the tasks the remote service lists,
    the loosely shaped JavaScript objects the page builds from them, the requests
    it sends and the replies it gets back. */
module Tasks {

  datatype Option<+T> = None | Some(value: T)

  /** The settled reply to one HTTP round trip: the decoded payload, or any
      failure (network error, non-2xx status) that makes the call reject. */
  datatype Outcome<+T> = Ok(payload: T) | Fail

  datatype Priority = Low | Medium | High

  /** A task as the service lists it; `id` is the service-assigned `_id`. */
  datatype Note = Note(id: string, title: string, description: string, priority: Priority, completed: bool)

  /** A task-shaped object whose properties may be absent (`None` is an
      undefined property): the edit buffer `selectedNote` and request bodies. */
  datatype Fields = Fields(
    id: Option<string>,
    title: Option<string>,
    description: Option<string>,
    priority: Option<Priority>,
    completed: Option<bool>)

  /** The object `{}`, which is also what spreading `null` contributes. */
  const Empty: Fields := Fields(None, None, None, None, None)

  /** The task described by an object that has every property, if it has them all. */
  function NoteOf(f: Fields): (r: Option<Note>)
    ensures r.Some? <==> f.id.Some? && f.title.Some? && f.description.Some? && f.priority.Some? && f.completed.Some?
  {
    if f.id.Some? && f.title.Some? && f.description.Some? && f.priority.Some? && f.completed.Some? then
      Some(Note(f.id.value, f.title.value, f.description.value, f.priority.value, f.completed.value))
    else
      None
  }

  /** A listed task seen as a plain object, as the edit dialog and the toggle copy it. */
  function ObjectOf(n: Note): (f: Fields)
    ensures NoteOf(f) == Some(n)
  {
    Fields(Some(n.id), Some(n.title), Some(n.description), Some(n.priority), Some(n.completed))
  }

  /** One change made in the edit dialog: the property it sets and its new value. */
  datatype Edit =
    | SetTitle(title: string)
    | SetDescription(description: string)
    | SetPriority(priority: Priority)
    | SetCompleted(completed: bool)

  /** `f` holds the value that `e` sets. */
  predicate Carries(f: Fields, e: Edit) {
    match e
    case SetTitle(v) => f.title == Some(v)
    case SetDescription(v) => f.description == Some(v)
    case SetPriority(v) => f.priority == Some(v)
    case SetCompleted(v) => f.completed == Some(v)
  }

  /** `f` with the property that `e` sets removed. */
  function Without(f: Fields, e: Edit): Fields {
    match e
    case SetTitle(_) => f.(title := None)
    case SetDescription(_) => f.(description := None)
    case SetPriority(_) => f.(priority := None)
    case SetCompleted(_) => f.(completed := None)
  }

  /** The object literal `{ ...buffer, key: value }` of an edit-dialog setter:
      the new object holds the new value and agrees with the old buffer on every
      other property, `_id` included; spreading `null` contributes nothing. */
  function Spread(buffer: Option<Fields>, e: Edit): (r: Fields)
    ensures Carries(r, e)
    ensures Without(r, e) == Without(if buffer.Some? then buffer.value else Empty, e)
  {
    var base := if buffer.Some? then buffer.value else Empty;
    match e
    case SetTitle(v) => base.(title := Some(v))
    case SetDescription(v) => base.(description := Some(v))
    case SetPriority(v) => base.(priority := Some(v))
    case SetCompleted(v) => base.(completed := Some(v))
  }

  /** The body of the edit commit: the buffer's title, description, priority and
      completed flag, and never its `_id`. */
  function EditBody(buffer: Fields): (b: Fields)
    ensures b.id == None
    ensures b.(id := buffer.id) == buffer
  {
    Fields(None, buffer.title, buffer.description, buffer.priority, buffer.completed)
  }

  /** The object `{ ...n, completed: !n.completed }` sent by the completion toggle:
      the flag is flipped and every other field is kept. */
  function Toggled(n: Note): (r: Note)
    ensures r.completed == !n.completed
    ensures r.(completed := n.completed) == n
  {
    n.(completed := !n.completed)
  }

  lemma ToggledTwice(n: Note)
    ensures Toggled(Toggled(n)) == n
  {
  }

  /** `notes.find(note => note._id === id)`: the first task whose id matches. */
  function Find(notes: seq<Note>, id: string): (r: Option<Note>)
    ensures r.None? <==> forall i :: 0 <= i < |notes| ==> notes[i].id != id
    ensures r.Some? ==> r.value in notes && r.value.id == id
  {
    if notes == [] then None
    else if notes[0].id == id then Some(notes[0])
    else Find(notes[1..], id)
  }

  /** `k` is the position of the first task whose id is `id`. */
  ghost predicate FirstMatch(notes: seq<Note>, id: string, k: int) {
    0 <= k < |notes| && notes[k].id == id && forall j :: 0 <= j < k ==> notes[j].id != id
  }

  /** Find returns the first match, not just any match. */
  lemma {:induction false} FindIsFirst(notes: seq<Note>, id: string, k: int)
    requires FirstMatch(notes, id, k)
    ensures Find(notes, id) == Some(notes[k])
  {
    if k > 0 {
      assert notes[0].id != id;
      FindIsFirst(notes[1..], id, k - 1);
    }
  }

  /** Whatever Find returns sits at the first matching position. */
  lemma {:induction false} FindAt(notes: seq<Note>, id: string) returns (k: int)
    requires Find(notes, id).Some?
    ensures FirstMatch(notes, id, k) && notes[k] == Find(notes, id).value
  {
    if notes[0].id == id {
      k := 0;
    } else {
      var k' := FindAt(notes[1..], id);
      k := k' + 1;
    }
  }

  /** The linear search behind `notes.find`. */
  method FindNote(notes: seq<Note>, id: string) returns (r: Option<Note>)
    ensures r == Find(notes, id)
  {
    var i := 0;
    while i < |notes|
      invariant 0 <= i <= |notes|
      invariant forall j :: 0 <= j < i ==> notes[j].id != id
    {
      if notes[i].id == id {
        FindIsFirst(notes, id, i);
        return Some(notes[i]);
      }
      i := i + 1;
    }
    return None;
  }

  /** The requests the page sends to the task service. */
  datatype Request =
    | GetTasks                                       // GET    /api/tasks
    | PostTask(body: Fields)                         // POST   /api/tasks
    | PutTask(target: Option<string>, body: Fields)  // PUT    /api/tasks/{target}; None is the path segment "undefined"
    | DeleteTask(taskId: string)                     // DELETE /api/tasks/{taskId}
}
