/** An assumed behaviour of the task service for the page's PUT requests: a
    complete body's fields are stored under the target id, and `_id` stays.
    It serves only to state what runs of toggles and edit commits, with complete
    bodies, do to the stored list: the page itself never sees the store except
    through a later list. */
module Remote {
  import opened Tasks
  import opened PageModel

  /** The stored task after a PUT body is applied to it. */
  function Overwrite(n: Note, body: Fields): (r: Note)
    ensures r.id == n.id
    ensures NoteOf(body.(id := Some(n.id))).Some? ==> Some(r) == NoteOf(body.(id := Some(n.id)))
  {
    Note(n.id,
         if body.title.Some? then body.title.value else n.title,
         if body.description.Some? then body.description.value else n.description,
         if body.priority.Some? then body.priority.value else n.priority,
         if body.completed.Some? then body.completed.value else n.completed)
  }

  /** The stored list after `PUT /api/tasks/{target}`: the task with that id is
      overwritten and every other task, and the order, is kept. A missing target
      (the path segment "undefined") matches no task. */
  function ApplyPut(store: seq<Note>, target: Option<string>, body: Fields): (r: seq<Note>)
    ensures |r| == |store|
    ensures forall i :: 0 <= i < |store| ==>
              r[i] == if target == Some(store[i].id) then Overwrite(store[i], body) else store[i]
    decreases |store|
  {
    if store == [] then []
    else [if target == Some(store[0].id) then Overwrite(store[0], body) else store[0]]
         + ApplyPut(store[1..], target, body)
  }

  /** Committing a complete buffer stores exactly the buffer's fields in the task
      it was opened from: the PUT is a full replace, and no other task changes. */
  lemma CommitStoresBuffer(p: Page, store: seq<Note>, reply: Outcome<()>)
    requires p.selectedNote.Some? && NoteOf(p.selectedNote.value).Some?
    ensures
      var edited := NoteOf(p.selectedNote.value).value;
      var sent := EditNote(p, reply).sent.value;
      var stored := ApplyPut(store, sent.target, sent.body);
      forall i :: 0 <= i < |store| ==>
        stored[i] == if store[i].id == edited.id then edited else store[i]
  {
  }

  /** The body carries every editable property, as the toggle's body does. */
  predicate Complete(body: Fields) {
    body.title.Some? && body.description.Some? && body.priority.Some? && body.completed.Some?
  }

  /** Repeating a PUT with a complete body changes nothing more than the first one did. */
  lemma PutIsIdempotent(store: seq<Note>, target: Option<string>, body: Fields)
    requires Complete(body)
    ensures ApplyPut(ApplyPut(store, target, body), target, body) == ApplyPut(store, target, body)
  {
  }

  /** Every stored task with the id is `n`; this holds whenever ids are unique. */
  ghost predicate SingleCopy(store: seq<Note>, noteId: string, n: Note) {
    forall i :: 0 <= i < |store| && store[i].id == noteId ==> store[i] == n
  }

  /** After the service applies a toggle, the first task with the id in the
      refreshed list is the flipped copy. */
  lemma ToggleShowsFlip(store: seq<Note>, noteId: string, n: Note)
    requires Find(store, noteId) == Some(n)
    ensures Find(ApplyPut(store, Some(noteId), ObjectOf(Toggled(n))), noteId) == Some(Toggled(n))
  {
    var k := FindAt(store, noteId);
    var stored := ApplyPut(store, Some(noteId), ObjectOf(Toggled(n)));
    forall j | 0 <= j < k
      ensures stored[j].id != noteId
    {
      assert stored[j] == store[j];
    }
    assert FirstMatch(stored, noteId, k);
    FindIsFirst(stored, noteId, k);
  }

  /** Putting the original task back after its flipped copy restores the list. */
  lemma PutBackRestores(store: seq<Note>, noteId: string, n: Note)
    requires Find(store, noteId) == Some(n) && SingleCopy(store, noteId, n)
    ensures ApplyPut(ApplyPut(store, Some(noteId), ObjectOf(Toggled(n))), Some(noteId), ObjectOf(n)) == store
  {
    var back := ApplyPut(ApplyPut(store, Some(noteId), ObjectOf(Toggled(n))), Some(noteId), ObjectOf(n));
    forall i | 0 <= i < |store|
      ensures back[i] == store[i]
    {
      if store[i].id == noteId {
        assert store[i] == n;
      }
    }
  }

  /** Two toggles of one task, each followed by its refresh, with no other
      writer: the second reads the first's result from the refreshed cache and
      sends the original task back, so the stored list ends as it started. */
  lemma ToggleTwiceRestores(p: Page, noteId: string, n: Note)
    requires Find(p.notes, noteId) == Some(n) && SingleCopy(p.notes, noteId, n)
    ensures
      var stored := ApplyPut(p.notes, Some(noteId), ObjectOf(Toggled(n)));
      var refreshed := FetchNotes(CompletedChange(p, noteId, Ok(())).page, Ok(stored)).page;
      CompletedChange(refreshed, noteId, Ok(())).sent == Some(PutTask(Some(noteId), ObjectOf(n)))
      && ApplyPut(stored, Some(noteId), ObjectOf(n)) == p.notes
  {
    ToggleShowsFlip(p.notes, noteId, n);
    ToggledTwice(n);
    PutBackRestores(p.notes, noteId, n);
  }

  /** Two toggles against a cache that was not refreshed in between send the same
      body, so the second write repeats the first and the task stays flipped:
      the lost update of back-to-back clicks. */
  lemma StaleToggleLosesUpdate(p: Page, noteId: string, n: Note)
    requires Find(p.notes, noteId) == Some(n)
    ensures
      var first := CompletedChange(p, noteId, Ok(()));
      var stored := ApplyPut(p.notes, Some(noteId), ObjectOf(Toggled(n)));
      first.sent == Some(PutTask(Some(noteId), ObjectOf(Toggled(n))))
      && CompletedChange(first.page, noteId, Ok(())).sent == first.sent
      && ApplyPut(stored, Some(noteId), ObjectOf(Toggled(n))) == stored
      && stored != p.notes
  {
    PutIsIdempotent(p.notes, Some(noteId), ObjectOf(Toggled(n)));
    var k := FindAt(p.notes, noteId);
    assert ApplyPut(p.notes, Some(noteId), ObjectOf(Toggled(n)))[k] != p.notes[k];
  }
}
