/** The page component itself: its state variables as fields and each handler as
    a method that updates them in sequence, proved to leave exactly the state
    (and send exactly the request) its transition in PageModel describes. */
module Component {
  import opened Tasks
  import PageModel

  class NoteManagerPage {
    var notes: seq<Note>
    var title: string
    var description: string
    var priority: Priority
    var completed: bool
    var errorAlert: bool
    var openModal: bool
    var selectedNote: Option<Fields>

    /** The current values of the state variables. */
    function Snapshot(): PageModel.Page
      reads this
    {
      PageModel.Page(notes, title, description, priority, completed, errorAlert, openModal, selectedNote)
    }

    /** The `useState` initial values. */
    constructor ()
      ensures Snapshot() == PageModel.Initial()
    {
      notes := [];
      title := "";
      description := "";
      priority := Low;
      completed := false;
      errorAlert := false;
      openModal := false;
      selectedNote := None;
    }

    method FetchNotes(reply: Outcome<seq<Note>>) returns (sent: Request)
      modifies this
      ensures PageModel.Step(Snapshot(), Some(sent), false) == PageModel.FetchNotes(old(Snapshot()), reply)
    {
      sent := GetTasks;
      match reply
      case Ok(list) =>
        notes := list;
      case Fail =>
        errorAlert := true;
    }

    /** Returns the request sent and whether a `fetchNotes` was started. */
    method CreateNote(reply: Outcome<()>) returns (sent: Request, refetch: bool)
      modifies this
      ensures PageModel.Step(Snapshot(), Some(sent), refetch) == PageModel.CreateNote(old(Snapshot()), reply)
    {
      sent := PostTask(Fields(None, Some(title), Some(description), Some(priority), Some(completed)));
      if reply.Ok? {
        refetch := true;
        title := "";
        description := "";
        priority := Low;
        completed := false;
      } else {
        refetch := false;
        errorAlert := true;
      }
    }

    method DeleteNote(noteId: string, reply: Outcome<()>) returns (sent: Request, refetch: bool)
      modifies this
      ensures PageModel.Step(Snapshot(), Some(sent), refetch) == PageModel.DeleteNote(old(Snapshot()), noteId, reply)
    {
      sent := DeleteTask(noteId);
      if reply.Ok? {
        refetch := true;
      } else {
        refetch := false;
        errorAlert := true;
      }
    }

    method OpenModal(note: Note)
      modifies this
      ensures Snapshot() == PageModel.OpenModal(old(Snapshot()), note)
    {
      selectedNote := Some(ObjectOf(note));
      openModal := true;
    }

    method CloseModal()
      modifies this
      ensures Snapshot() == PageModel.CloseModal(old(Snapshot()))
    {
      selectedNote := None;
      openModal := false;
    }

    method EditNote(reply: Outcome<()>) returns (sent: Option<Request>, refetch: bool)
      modifies this
      ensures PageModel.Step(Snapshot(), sent, refetch) == PageModel.EditNote(old(Snapshot()), reply)
    {
      if selectedNote.None? {
        // reading `_id` of null throws before the request is built
        sent, refetch := None, false;
        errorAlert := true;
        CloseModal();
        return;
      }
      var buffer := selectedNote.value;
      sent := Some(PutTask(buffer.id, Fields(None, buffer.title, buffer.description, buffer.priority, buffer.completed)));
      if reply.Ok? {
        refetch := true;
        CloseModal();
      } else {
        refetch := false;
        errorAlert := true;
        CloseModal();
      }
    }

    method CompletedChange(noteId: string, reply: Outcome<()>) returns (sent: Option<Request>, refetch: bool)
      modifies this
      ensures PageModel.Step(Snapshot(), sent, refetch) == PageModel.CompletedChange(old(Snapshot()), noteId, reply)
    {
      var noteToUpdate := FindNote(notes, noteId);
      if noteToUpdate.None? {
        // reading `completed` of undefined throws before the request is built
        sent, refetch := None, false;
        errorAlert := true;
        return;
      }
      var n := noteToUpdate.value;
      sent := Some(PutTask(Some(noteId), ObjectOf(n.(completed := !n.completed))));
      if reply.Ok? {
        refetch := true;
      } else {
        refetch := false;
        errorAlert := true;
      }
    }

    method PriorityChange(value: Priority)
      modifies this
      ensures Snapshot() == PageModel.FormChange(old(Snapshot()), PageModel.ChoosePriority(value))
    {
      priority := value;
    }

    method TitleChange(value: string)
      modifies this
      ensures Snapshot() == PageModel.FormChange(old(Snapshot()), PageModel.TypeTitle(value))
    {
      title := value;
    }

    method DescriptionChange(value: string)
      modifies this
      ensures Snapshot() == PageModel.FormChange(old(Snapshot()), PageModel.TypeDescription(value))
    {
      description := value;
    }

    /** The edit dialog's setters: `setSelectedNote({ ...selectedNote, key: value })`. */
    method BufferChange(e: Edit)
      modifies this
      ensures Snapshot() == PageModel.EditBuffer(old(Snapshot()), e)
    {
      var base := if selectedNote.Some? then selectedNote.value else Empty;
      match e
      case SetTitle(v) => selectedNote := Some(base.(title := Some(v)));
      case SetDescription(v) => selectedNote := Some(base.(description := Some(v)));
      case SetPriority(v) => selectedNote := Some(base.(priority := Some(v)));
      case SetCompleted(v) => selectedNote := Some(base.(completed := Some(v)));
    }

    method DismissError()
      modifies this
      ensures Snapshot() == PageModel.DismissError(old(Snapshot()))
    {
      errorAlert := false;
    }
  }
}
