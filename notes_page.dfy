/** The Notes page, and the note search shared with the Archive and Trash
    pages: the search/category/tag filter, the category and tag options, the
    sort, and the submit, delete and archive handlers. */
module NotesPage {
  import opened Wrappers
  import opened Types
  import opened Text
  import opened Seqs
  import NoteStore

  // ---- the search every note page applies ----

  /** `note.tags || []`. */
  function TagsOf(n: Note): seq<string> {
    if n.tags.Some? then n.tags.value else []
  }

  /** The search term occurs, ignoring case, in the title, the subtitle or
      the content; the category and tag, when chosen, match. */
  predicate NoteMatches(n: Note, search: string, category: string, tag: string) {
    && (|| IncludesIgnoringCase(n.title, search)
        || (n.subtitle.Some? && IncludesIgnoringCase(n.subtitle.value, search))
        || IncludesIgnoringCase(n.content, search))
    && (category == "" || n.category == Some(category))
    && (tag == "" || tag in TagsOf(n))
  }

  /** `filteredNotes` before sorting. */
  function FilterNotes(ns: seq<Note>, search: string, category: string, tag: string): (r: seq<Note>)
    ensures forall n :: n in r <==> n in ns && NoteMatches(n, search, category, tag)
    ensures IsSubseq(r, ns)
  {
    Filter(ns, n => NoteMatches(n, search, category, tag))
  }

  /** No search, category or tag keeps every note, in order. */
  lemma UnfilteredKeepsAllNotes(ns: seq<Note>)
    ensures FilterNotes(ns, "", "", "") == ns
  {
    forall n | n in ns ensures NoteMatches(n, "", "", "") {
      IncludesEmpty(Lower(n.title));
    }
  }

  /** `categories`: each non-empty category of the notes, once. */
  function NoteCategories(ns: seq<Note>): (r: seq<string>)
    ensures NoDuplicates(r)
    ensures forall c :: c in r <==> c != "" && exists i :: 0 <= i < |ns| && ns[i].category == Some(c)
  {
    DistinctPresent(ns, (n: Note) => n.category)
  }

  /** `tags`: each tag of any note, once. */
  function NoteTags(ns: seq<Note>): (r: seq<string>)
    ensures NoDuplicates(r)
    ensures forall t :: t in r <==> exists i :: 0 <= i < |ns| && t in TagsOf(ns[i])
  {
    Distinct(FlatMap(ns, TagsOf))
  }

  // ---- the sort ----

  datatype SortKey = ByTitle | ByCategory | ByDate

  datatype SortOrder = Asc | Desc

  /** The comparator handed to `sort`. `collate` is `localeCompare` and
      `time` is `new Date(..).getTime()`, both taken as given. Descending
      order calls the same comparison with the notes swapped. */
  function Comparator(key: SortKey, order: SortOrder, collate: (string, string) -> int, time: string -> int)
    : (Note, Note) -> int
  {
    (a: Note, b: Note) =>
      var (x, y) := if order == Asc then (a, b) else (b, a);
      match key
      case ByTitle => collate(x.title, y.title)
      case ByCategory => collate(OrElse(x.category, ""), OrElse(y.category, ""))
      case ByDate => time(x.updatedAt) - time(y.updatedAt)
  }

  lemma DescendingSwapsArguments(key: SortKey, collate: (string, string) -> int, time: string -> int, a: Note, b: Note)
    ensures Comparator(key, Desc, collate, time)(a, b) == Comparator(key, Asc, collate, time)(b, a)
  {
  }

  /** A comparator built from an asymmetric collation never asks to swap a
      pair both ways round, in either order; the date comparison never does. */
  lemma ComparatorAsymmetric(key: SortKey, order: SortOrder, collate: (string, string) -> int, time: string -> int)
    requires key != ByDate ==> forall x, y :: collate(x, y) > 0 ==> collate(y, x) <= 0
    ensures Asymmetric(Comparator(key, order, collate, time))
  {
    var cmp := Comparator(key, order, collate, time);
    forall a, b | cmp(a, b) > 0 ensures cmp(b, a) <= 0 {
      match key
      case ByTitle =>
        if order == Asc { assert collate(a.title, b.title) > 0; } else { assert collate(b.title, a.title) > 0; }
      case ByCategory =>
        if order == Asc {
          assert collate(OrElse(a.category, ""), OrElse(b.category, "")) > 0;
        } else {
          assert collate(OrElse(b.category, ""), OrElse(a.category, "")) > 0;
        }
      case ByDate =>
    }
  }

  /** `filteredNotes`: the matching notes, stably sorted. */
  function VisibleNotes(ns: seq<Note>, search: string, category: string, tag: string,
                        key: SortKey, order: SortOrder, collate: (string, string) -> int, time: string -> int)
    : (r: seq<Note>)
    ensures multiset(r) == multiset(FilterNotes(ns, search, category, tag))
    ensures forall n :: n in r <==> n in ns && NoteMatches(n, search, category, tag)
  {
    var f := FilterNotes(ns, search, category, tag);
    var r := SortBy(f, Comparator(key, order, collate, time));
    assert forall n :: n in r <==> n in multiset(r);
    assert forall n :: n in f <==> n in multiset(f);
    r
  }

  /** The shown list is in order whenever the collation is asymmetric. */
  lemma VisibleNotesSorted(ns: seq<Note>, search: string, category: string, tag: string,
                           key: SortKey, order: SortOrder, collate: (string, string) -> int, time: string -> int)
    requires key != ByDate ==> forall x, y :: collate(x, y) > 0 ==> collate(y, x) <= 0
    ensures SortedBy(VisibleNotes(ns, search, category, tag, key, order, collate, time),
                     Comparator(key, order, collate, time))
  {
    ComparatorAsymmetric(key, order, collate, time);
    SortBySorted(FilterNotes(ns, search, category, tag), Comparator(key, order, collate, time));
  }

  /** Two notes tie under the sort key: the comparator sees the same value. */
  predicate SameKey(key: SortKey, a: Note, b: Note) {
    match key
    case ByTitle => a.title == b.title
    case ByCategory => OrElse(a.category, "") == OrElse(b.category, "")
    case ByDate => a.updatedAt == b.updatedAt
  }

  /** `sort` is stable: notes with the same sort value as `m` are shown in
      store order, provided the collation ranks a string level with itself. */
  lemma VisibleNotesStable(ns: seq<Note>, search: string, category: string, tag: string,
                           key: SortKey, order: SortOrder, collate: (string, string) -> int, time: string -> int,
                           m: Note)
    requires key != ByDate ==> forall x :: collate(x, x) == 0
    ensures Filter(VisibleNotes(ns, search, category, tag, key, order, collate, time), n => SameKey(key, n, m))
         == Filter(FilterNotes(ns, search, category, tag), n => SameKey(key, n, m))
  {
    var cmp := Comparator(key, order, collate, time);
    var p := (n: Note) => SameKey(key, n, m);
    forall a, b | p(a) && p(b) ensures cmp(a, b) <= 0 {
      match key
      case ByTitle => assert collate(a.title, b.title) == collate(m.title, m.title);
      case ByCategory =>
        assert collate(OrElse(a.category, ""), OrElse(b.category, "")) == collate(OrElse(m.category, ""), OrElse(m.category, ""));
      case ByDate =>
    }
    SortByStable(FilterNotes(ns, search, category, tag), cmp, p);
  }

  // ---- confirmations ----

  /** `confirmAction`: what the confirm button will run, with the dialog's
      title and message. */
  datatype Pending<A> = Pending(action: A, title: string, message: string)

  datatype NotesAction = DeleteNoteAction(id: string) | ArchiveNoteAction(id: string)

  const DeleteMessage: string := "Are you sure you want to delete this note? It will be moved to trash."
  const ArchiveMessage: string :=
    "Are you sure you want to archive this note? You can access it later from the Archive page."

  /** The answers of the backend the page's handlers may need. */
  datatype NoteReplies = NoteReplies(
    auth: Result<Option<User>, string>, user: Option<User>, now: string, testError: Option<string>,
    inserted: Result<Option<Note>, string>, updateError: Option<string>,
    moved: Result<Note, string>, deleteError: Option<string>)

  class NotesPage {
    const store: NoteStore.NoteStore
    var isModalOpen: bool
    var selectedNote: Option<Note>
    var confirmAction: Option<Pending<NotesAction>>
    var isConfirmDialogOpen: bool

    constructor (store: NoteStore.NoteStore, openForm: bool)
      ensures this.store == store && isModalOpen == openForm && selectedNote == None
      ensures confirmAction == None && !isConfirmDialogOpen
    {
      this.store := store;
      isModalOpen := openForm;
      selectedNote := None;
      confirmAction := None;
      isConfirmDialogOpen := false;
    }

    /** `handleSubmit`: update the selected note, or add a new one when none
        is selected; either way the modal closes and the selection clears. */
    method HandleSubmit(data: NoteFields, replies: NoteReplies, encrypt: Cipher, decrypt: Cipher)
      modifies this, store
      ensures !isModalOpen && selectedNote == None
      ensures confirmAction == old(confirmAction) && isConfirmDialogOpen == old(isConfirmDialogOpen)
      ensures old(selectedNote).Some? && replies.user.Some? && replies.updateError.None? ==>
        store.Contents() == NoteStore.Patched(old(store.Contents()), old(selectedNote).value.id, data, replies.now)
      ensures old(selectedNote).Some? && (replies.user.None? || replies.updateError.Some?) ==>
        store.Contents() == old(store.Contents())
      ensures (&& old(selectedNote).None? && replies.auth.Success? && replies.auth.value.Some?
               && replies.testError.None? && replies.inserted.Success? && replies.inserted.value.Some?) ==>
        |store.notes| == |old(store.notes)| + 1 && store.notes[1..] == old(store.notes)
      ensures old(selectedNote).None? && store.error.Some? ==> store.Contents() == old(store.Contents())
    {
      if selectedNote.Some? {
        var _ := store.UpdateNote(selectedNote.value.id, data, replies.user, replies.now, replies.updateError, encrypt);
      } else {
        var _ := store.AddNote(data, replies.auth, replies.now, replies.testError, replies.inserted, encrypt, decrypt);
      }
      isModalOpen := false;
      selectedNote := None;
    }

    /** `handleDelete`: ask before deleting. */
    method HandleDelete(id: string)
      modifies this
      ensures confirmAction == Some(Pending(DeleteNoteAction(id), "Delete Note", DeleteMessage)) && isConfirmDialogOpen
      ensures isModalOpen == old(isModalOpen) && selectedNote == old(selectedNote)
    {
      confirmAction := Some(Pending(DeleteNoteAction(id), "Delete Note", DeleteMessage));
      isConfirmDialogOpen := true;
    }

    /** `handleArchive`: ask before archiving. */
    method HandleArchive(id: string)
      modifies this
      ensures confirmAction == Some(Pending(ArchiveNoteAction(id), "Archive Note", ArchiveMessage)) && isConfirmDialogOpen
      ensures isModalOpen == old(isModalOpen) && selectedNote == old(selectedNote)
    {
      confirmAction := Some(Pending(ArchiveNoteAction(id), "Archive Note", ArchiveMessage));
      isConfirmDialogOpen := true;
    }

    /** The confirm button: run the pending action against the store, then
        close the dialog. Delete runs `deleteNote`, so the note leaves every
        list at once and is not moved to the trash. */
    method Confirm(moved: Result<Note, string>, deleteError: Option<string>)
      modifies this, store
      ensures !isConfirmDialogOpen && confirmAction == old(confirmAction)
      ensures old(confirmAction).None? ==> store.Contents() == old(store.Contents())
      ensures old(confirmAction).Some? && old(confirmAction).value.action.DeleteNoteAction? ==>
        var id := old(confirmAction).value.action.id;
        store.Contents() == (if deleteError.None? then NoteStore.Deleted(old(store.Contents()), id) else old(store.Contents()))
      ensures old(confirmAction).Some? && old(confirmAction).value.action.ArchiveNoteAction? ==>
        var id := old(confirmAction).value.action.id;
        store.Contents() == (if moved.Success? then NoteStore.Archived(old(store.Contents()), id, moved.value) else old(store.Contents()))
    {
      if confirmAction.Some? {
        match confirmAction.value.action
        case DeleteNoteAction(id) => store.DeleteNote(id, deleteError);
        case ArchiveNoteAction(id) => store.ArchiveNote(id, moved);
      }
      isConfirmDialogOpen := false;
    }
  }
}
