/** The Archive page: the note search over the archived notes, its options,
    and the unarchive and move-to-trash confirmations. */
module ArchivePage {
  import opened Wrappers
  import opened Types
  import opened Text
  import opened Seqs
  import NoteStore
  import NotesPage

  datatype ArchiveAction = UnarchiveAction(id: string) | TrashAction(id: string)

  const UnarchiveMessage: string :=
    "Are you sure you want to unarchive this note? It will be moved back to your main notes."
  const TrashMessage: string := "Are you sure you want to move this note to trash?"

  /** The dialog's style: 'danger' exactly when the title mentions the trash. */
  function DialogType(title: string): (t: string)
    ensures t == "danger" <==> Includes(title, "Trash")
    ensures t == "danger" || t == "info"
  {
    if Includes(title, "Trash") then "danger" else "info"
  }

  /** Moving to the trash is shown as dangerous, unarchiving is not. */
  lemma DialogTypes()
    ensures DialogType("Move to Trash") == "danger"
    ensures DialogType("Unarchive Note") == "info"
  {
    assert OccursAt("Move to Trash", "Trash", 8);
    FirstCharMissing("Unarchive Note", "Trash");
  }

  class ArchivePage {
    const store: NoteStore.NoteStore
    var confirmAction: Option<NotesPage.Pending<ArchiveAction>>
    var isConfirmDialogOpen: bool

    constructor (store: NoteStore.NoteStore)
      ensures this.store == store && confirmAction == None && !isConfirmDialogOpen
    {
      this.store := store;
      confirmAction := None;
      isConfirmDialogOpen := false;
    }

    /** `filteredNotes`: the archived notes the search keeps, in store order. */
    function FilteredNotes(search: string, category: string, tag: string): (r: seq<Note>)
      reads store
      ensures forall n :: n in r <==> n in store.archivedNotes && NotesPage.NoteMatches(n, search, category, tag)
      ensures IsSubseq(r, store.archivedNotes)
    {
      NotesPage.FilterNotes(store.archivedNotes, search, category, tag)
    }

    /** `categories` and `tags` of the archive. */
    function Categories(): (r: seq<string>)
      reads store
      ensures NoDuplicates(r)
      ensures forall c :: c in r <==>
        c != "" && exists i :: 0 <= i < |store.archivedNotes| && store.archivedNotes[i].category == Some(c)
    {
      NotesPage.NoteCategories(store.archivedNotes)
    }

    function Tags(): (r: seq<string>)
      reads store
      ensures NoDuplicates(r)
      ensures forall t :: t in r <==>
        exists i :: 0 <= i < |store.archivedNotes| && t in NotesPage.TagsOf(store.archivedNotes[i])
    {
      NotesPage.NoteTags(store.archivedNotes)
    }

    method HandleUnarchive(id: string)
      modifies this
      ensures confirmAction == Some(NotesPage.Pending(UnarchiveAction(id), "Unarchive Note", UnarchiveMessage))
      ensures isConfirmDialogOpen && DialogType(confirmAction.value.title) == "info"
    {
      confirmAction := Some(NotesPage.Pending(UnarchiveAction(id), "Unarchive Note", UnarchiveMessage));
      isConfirmDialogOpen := true;
      DialogTypes();
    }

    method HandleMoveToTrash(id: string)
      modifies this
      ensures confirmAction == Some(NotesPage.Pending(TrashAction(id), "Move to Trash", TrashMessage))
      ensures isConfirmDialogOpen && DialogType(confirmAction.value.title) == "danger"
    {
      confirmAction := Some(NotesPage.Pending(TrashAction(id), "Move to Trash", TrashMessage));
      isConfirmDialogOpen := true;
      DialogTypes();
    }

    /** The confirm button: unarchive or trash through the store, then close. */
    method Confirm(moved: Result<Note, string>)
      modifies this, store
      ensures !isConfirmDialogOpen && confirmAction == old(confirmAction)
      ensures old(confirmAction).None? || moved.Failure? ==> store.Contents() == old(store.Contents())
      ensures old(confirmAction).Some? && moved.Success? && old(confirmAction).value.action.UnarchiveAction? ==>
        store.Contents() == NoteStore.Unarchived(old(store.Contents()), old(confirmAction).value.action.id, moved.value)
      ensures old(confirmAction).Some? && moved.Success? && old(confirmAction).value.action.TrashAction? ==>
        store.Contents() == NoteStore.Trashed(old(store.Contents()), old(confirmAction).value.action.id, moved.value)
    {
      if confirmAction.Some? {
        match confirmAction.value.action
        case UnarchiveAction(id) => store.UnarchiveNote(id, moved);
        case TrashAction(id) => store.MoveToTrash(id, moved);
      }
      isConfirmDialogOpen := false;
    }
  }
}
