/** The Trash page: the note search over the trash, the restore and
    permanent-delete confirmations, and Empty Trash, which deletes the notes
    of the trash one after another. */
module TrashPage {
  import opened Wrappers
  import opened Types
  import opened Seqs
  import NoteStore
  import NotesPage

  datatype TrashAction =
    | RestoreAction(id: string)
    | PermanentDeleteAction(id: string)
    | EmptyTrashAction(snapshot: seq<Note>)

  const RestoreMessage: string :=
    "Are you sure you want to restore this note? It will be moved back to your main notes."
  const PermanentDeleteMessage: string :=
    "Are you sure you want to permanently delete this note? This action cannot be undone."
  const EmptyTrashMessage: string :=
    "Are you sure you want to permanently delete all notes in the trash? This action cannot be undone."

  /** The backend's answer to the i-th delete; answers not given are
      successes. */
  function ErrorAt(errors: seq<Option<string>>, i: nat): Option<string> {
    if i < |errors| then errors[i] else None
  }

  /** The lists after deleting the notes of `snapshot` in order, the i-th
      delete answered by `ErrorAt(errors, i)`; a refused delete changes
      nothing. */
  function DeleteAll(l: NoteStore.Lists, snapshot: seq<Note>, errors: seq<Option<string>>): NoteStore.Lists
    decreases |snapshot|
  {
    if snapshot == [] then l
    else
      var before := DeleteAll(l, snapshot[..|snapshot| - 1], errors);
      if ErrorAt(errors, |snapshot| - 1).None? then NoteStore.Deleted(before, snapshot[|snapshot| - 1].id) else before
  }

  /** One more delete at the end of the snapshot. */
  lemma DeleteAllStep(l: NoteStore.Lists, snapshot: seq<Note>, errors: seq<Option<string>>, i: nat)
    requires i < |snapshot|
    ensures DeleteAll(l, snapshot[..i + 1], errors) ==
      var before := DeleteAll(l, snapshot[..i], errors);
      if ErrorAt(errors, i).None? then NoteStore.Deleted(before, snapshot[i].id) else before
  {
    assert snapshot[..i + 1][..i] == snapshot[..i];
  }

  /** When every delete succeeds no note of the snapshot is left anywhere. */
  lemma {:induction false} AllDeletedGone(l: NoteStore.Lists, snapshot: seq<Note>, errors: seq<Option<string>>)
    requires forall i :: 0 <= i < |errors| ==> errors[i].None?
    ensures forall n :: n in snapshot ==>
      var r := DeleteAll(l, snapshot, errors);
      n.id !in NoteStore.Ids(r.notes) && n.id !in NoteStore.Ids(r.archived) && n.id !in NoteStore.Ids(r.trashed)
    decreases |snapshot|
  {
    if snapshot != [] {
      var front := snapshot[..|snapshot| - 1];
      AllDeletedGone(l, front, errors);
      assert forall n :: n in snapshot ==> n in front || n == snapshot[|snapshot| - 1];
    }
  }

  /** Empty Trash deletes nothing but the snapshot: a note whose id is not in
      it stays in whichever list held it. */
  lemma {:induction false} OthersSurvive(l: NoteStore.Lists, snapshot: seq<Note>, errors: seq<Option<string>>, n: Note)
    requires forall i :: 0 <= i < |snapshot| ==> snapshot[i].id != n.id
    ensures n in DeleteAll(l, snapshot, errors).notes <==> n in l.notes
    ensures n in DeleteAll(l, snapshot, errors).archived <==> n in l.archived
    ensures n in DeleteAll(l, snapshot, errors).trashed <==> n in l.trashed
    decreases |snapshot|
  {
    if snapshot != [] {
      OthersSurvive(l, snapshot[..|snapshot| - 1], errors, n);
    }
  }

  /** The ids stay unique however many of the deletes succeed. */
  lemma {:induction false} DeleteAllKeepsWellFormed(l: NoteStore.Lists, snapshot: seq<Note>, errors: seq<Option<string>>)
    requires NoteStore.WellFormed(l)
    ensures NoteStore.WellFormed(DeleteAll(l, snapshot, errors))
    decreases |snapshot|
  {
    if snapshot != [] {
      DeleteAllKeepsWellFormed(l, snapshot[..|snapshot| - 1], errors);
      NoteStore.DeleteKeepsWellFormed(DeleteAll(l, snapshot[..|snapshot| - 1], errors), snapshot[|snapshot| - 1].id);
    }
  }

  class TrashPage {
    const store: NoteStore.NoteStore
    var confirmAction: Option<NotesPage.Pending<TrashAction>>
    var isConfirmDialogOpen: bool

    constructor (store: NoteStore.NoteStore)
      ensures this.store == store && confirmAction == None && !isConfirmDialogOpen
    {
      this.store := store;
      confirmAction := None;
      isConfirmDialogOpen := false;
    }

    /** `filteredNotes`: the trashed notes the search keeps, in store order. */
    function FilteredNotes(search: string, category: string, tag: string): (r: seq<Note>)
      reads store
      ensures forall n :: n in r <==> n in store.trashedNotes && NotesPage.NoteMatches(n, search, category, tag)
      ensures IsSubseq(r, store.trashedNotes)
    {
      NotesPage.FilterNotes(store.trashedNotes, search, category, tag)
    }

    /** `categories` and `tags` of the trash. */
    function Categories(): (r: seq<string>)
      reads store
      ensures NoDuplicates(r)
      ensures forall c :: c in r <==>
        c != "" && exists i :: 0 <= i < |store.trashedNotes| && store.trashedNotes[i].category == Some(c)
    {
      NotesPage.NoteCategories(store.trashedNotes)
    }

    function Tags(): (r: seq<string>)
      reads store
      ensures NoDuplicates(r)
      ensures forall t :: t in r <==>
        exists i :: 0 <= i < |store.trashedNotes| && t in NotesPage.TagsOf(store.trashedNotes[i])
    {
      NotesPage.NoteTags(store.trashedNotes)
    }

    /** The Empty Trash button appears exactly when the trash holds a note. */
    predicate OffersEmptyTrash()
      reads store
    {
      |store.trashedNotes| > 0
    }

    method HandleRestore(id: string)
      modifies this
      ensures confirmAction == Some(NotesPage.Pending(RestoreAction(id), "Restore Note", RestoreMessage))
      ensures isConfirmDialogOpen
    {
      confirmAction := Some(NotesPage.Pending(RestoreAction(id), "Restore Note", RestoreMessage));
      isConfirmDialogOpen := true;
    }

    method HandlePermanentDelete(id: string)
      modifies this
      ensures confirmAction == Some(NotesPage.Pending(PermanentDeleteAction(id), "Permanently Delete Note", PermanentDeleteMessage))
      ensures isConfirmDialogOpen
    {
      confirmAction := Some(NotesPage.Pending(PermanentDeleteAction(id), "Permanently Delete Note", PermanentDeleteMessage));
      isConfirmDialogOpen := true;
    }

    /** `handleEmptyTrash`: the action captures the trash as it is now. The
        button that calls it is rendered only while the trash holds a note,
        so the captured snapshot is never empty. */
    method HandleEmptyTrash()
      requires OffersEmptyTrash()
      modifies this
      ensures confirmAction == Some(NotesPage.Pending(EmptyTrashAction(store.trashedNotes), "Empty Trash", EmptyTrashMessage))
      ensures confirmAction.value.action.snapshot != []
      ensures isConfirmDialogOpen
    {
      confirmAction := Some(NotesPage.Pending(EmptyTrashAction(store.trashedNotes), "Empty Trash", EmptyTrashMessage));
      isConfirmDialogOpen := true;
    }

    /** The Empty Trash action: `permanentlyDelete` for each note of the
        snapshot, one at a time and in order. The result lists the ids
        deleted, in the order asked. */
    method EmptyTrash(snapshot: seq<Note>, errors: seq<Option<string>>) returns (asked: seq<string>)
      modifies store
      ensures store.Contents() == DeleteAll(old(store.Contents()), snapshot, errors)
      ensures |asked| == |snapshot| && forall i :: 0 <= i < |snapshot| ==> asked[i] == snapshot[i].id
      ensures snapshot != [] ==> !store.loading
    {
      asked := [];
      for i := 0 to |snapshot|
        invariant store.Contents() == DeleteAll(old(store.Contents()), snapshot[..i], errors)
        invariant |asked| == i && forall j :: 0 <= j < i ==> asked[j] == snapshot[j].id
        invariant i > 0 ==> !store.loading
      {
        DeleteAllStep(old(store.Contents()), snapshot, errors, i);
        store.PermanentlyDelete(snapshot[i].id, ErrorAt(errors, i));
        asked := asked + [snapshot[i].id];
      }
      assert snapshot[..|snapshot|] == snapshot;
    }

    /** The confirm button: run the pending action, then close the dialog.
        `moved` answers a restore, `deleteError` a single delete and `errors`
        the deletes of Empty Trash. */
    method Confirm(moved: Result<Note, string>, deleteError: Option<string>, errors: seq<Option<string>>)
      modifies this, store
      ensures !isConfirmDialogOpen && confirmAction == old(confirmAction)
      ensures old(confirmAction).None? ==> store.Contents() == old(store.Contents())
      ensures old(confirmAction).Some? && old(confirmAction).value.action.RestoreAction? ==>
        var id := old(confirmAction).value.action.id;
        store.Contents() == (if moved.Success? then NoteStore.Restored(old(store.Contents()), id, moved.value) else old(store.Contents()))
      ensures old(confirmAction).Some? && old(confirmAction).value.action.PermanentDeleteAction? ==>
        var id := old(confirmAction).value.action.id;
        store.Contents() == (if deleteError.None? then NoteStore.Deleted(old(store.Contents()), id) else old(store.Contents()))
      ensures old(confirmAction).Some? && old(confirmAction).value.action.EmptyTrashAction? ==>
        store.Contents() == DeleteAll(old(store.Contents()), old(confirmAction).value.action.snapshot, errors)
    {
      if confirmAction.Some? {
        match confirmAction.value.action
        case RestoreAction(id) => store.RestoreFromTrash(id, moved);
        case PermanentDeleteAction(id) => store.PermanentlyDelete(id, deleteError);
        case EmptyTrashAction(snapshot) => var _ := EmptyTrash(snapshot, errors);
      }
      isConfirmDialogOpen := false;
    }
  }
}
