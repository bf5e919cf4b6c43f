/** The note store: three client-side lists (active, archived, trashed) that
    mirror the `notes` table, and the operations that move one note between
    them once the backend has confirmed the change. */
module NoteStore {
  import opened Wrappers
  import opened Types
  import opened Seqs

  /** The three lists, as one value. */
  datatype Lists = Lists(notes: seq<Note>, archived: seq<Note>, trashed: seq<Note>)

  function Ids(s: seq<Note>): set<string> { KeySet(s, NoteId) }

  /** Every note id occurs at most once across the three lists. */
  predicate WellFormed(l: Lists) {
    && UniqueKeys(l.notes, NoteId) && UniqueKeys(l.archived, NoteId) && UniqueKeys(l.trashed, NoteId)
    && Ids(l.notes) !! Ids(l.archived) && Ids(l.notes) !! Ids(l.trashed) && Ids(l.archived) !! Ids(l.trashed)
  }

  // ---- what each confirmed operation does to the lists ----

  /** `archiveNote`: out of the active list, the server row in front of the
      archived list; the trash is untouched. */
  function Archived(l: Lists, id: string, row: Note): (r: Lists)
    ensures forall n :: n in r.notes <==> n in l.notes && n.id != id
    ensures r.archived == [row] + l.archived && r.trashed == l.trashed
  {
    Lists(WithoutKey(l.notes, id, NoteId), [row] + l.archived, l.trashed)
  }

  /** `unarchiveNote`: out of the archive, the returned row in front of the
      active list. */
  function Unarchived(l: Lists, id: string, row: Note): (r: Lists)
    ensures forall n :: n in r.archived <==> n in l.archived && n.id != id
    ensures r.notes == [row] + l.notes && r.trashed == l.trashed
  {
    Lists([row] + l.notes, WithoutKey(l.archived, id, NoteId), l.trashed)
  }

  /** `moveToTrash`: out of both the active list and the archive, the row in
      front of the trash. */
  function Trashed(l: Lists, id: string, row: Note): (r: Lists)
    ensures forall n :: n in r.notes <==> n in l.notes && n.id != id
    ensures forall n :: n in r.archived <==> n in l.archived && n.id != id
    ensures r.trashed == [row] + l.trashed
  {
    Lists(WithoutKey(l.notes, id, NoteId), WithoutKey(l.archived, id, NoteId), [row] + l.trashed)
  }

  /** `restoreFromTrash`: out of the trash, the row in front of the active
      list; the archive is untouched. */
  function Restored(l: Lists, id: string, row: Note): (r: Lists)
    ensures forall n :: n in r.trashed <==> n in l.trashed && n.id != id
    ensures r.notes == [row] + l.notes && r.archived == l.archived
  {
    Lists([row] + l.notes, l.archived, WithoutKey(l.trashed, id, NoteId))
  }

  /** `deleteNote`: out of all three lists. */
  function Deleted(l: Lists, id: string): (r: Lists)
    ensures forall n :: n in r.notes <==> n in l.notes && n.id != id
    ensures forall n :: n in r.archived <==> n in l.archived && n.id != id
    ensures forall n :: n in r.trashed <==> n in l.trashed && n.id != id
    ensures Ids(r.notes) == Ids(l.notes) - {id} && Ids(r.archived) == Ids(l.archived) - {id}
    ensures Ids(r.trashed) == Ids(l.trashed) - {id}
  {
    WithoutKeyKeySet(l.notes, id, NoteId);
    WithoutKeyKeySet(l.archived, id, NoteId);
    WithoutKeyKeySet(l.trashed, id, NoteId);
    Lists(WithoutKey(l.notes, id, NoteId), WithoutKey(l.archived, id, NoteId), WithoutKey(l.trashed, id, NoteId))
  }

  /** `{ ...n, ...patch, updated_at: now }`: every field the patch carries
      replaces the note's, and the time stamp is renewed; the note keeps its
      identity, owner, creation time and archive/trash stamps. */
  function Merge(n: Note, patch: NoteFields, now: string): (r: Note)
    ensures r.id == n.id && r.createdAt == n.createdAt && r.userId == n.userId
    ensures r.archivedAt == n.archivedAt && r.deletedAt == n.deletedAt && r.updatedAt == now
  {
    n.(title := Pick(patch.title, n.title), subtitle := PickOption(patch.subtitle, n.subtitle),
       content := Pick(patch.content, n.content), category := PickOption(patch.category, n.category),
       tags := PickOption(patch.tags, n.tags), backgroundColor := PickOption(patch.backgroundColor, n.backgroundColor),
       fontFamily := PickOption(patch.fontFamily, n.fontFamily), fontSize := PickOption(patch.fontSize, n.fontSize),
       updatedAt := now)
  }

  /** Applying the same patch twice is applying it once. */
  lemma MergeIdempotent(n: Note, patch: NoteFields, now: string)
    ensures Merge(Merge(n, patch, now), patch, now) == Merge(n, patch, now)
  {
  }

  /** A field the patch carries ends up with the patch's value; a field it
      leaves out keeps the note's. */
  lemma MergeTakesPatch(n: Note, patch: NoteFields, now: string)
    ensures patch.title.Some? ==> Merge(n, patch, now).title == patch.title.value
    ensures patch.subtitle.Some? ==> Merge(n, patch, now).subtitle == patch.subtitle
    ensures patch.content.Some? ==> Merge(n, patch, now).content == patch.content.value
    ensures patch.category.Some? ==> Merge(n, patch, now).category == patch.category
    ensures patch.tags.Some? ==> Merge(n, patch, now).tags == patch.tags
    ensures patch.backgroundColor.Some? ==> Merge(n, patch, now).backgroundColor == patch.backgroundColor
    ensures patch.fontFamily.Some? ==> Merge(n, patch, now).fontFamily == patch.fontFamily
    ensures patch.fontSize.Some? ==> Merge(n, patch, now).fontSize == patch.fontSize
    ensures patch.title.None? ==> Merge(n, patch, now).title == n.title
    ensures patch.subtitle.None? ==> Merge(n, patch, now).subtitle == n.subtitle
    ensures patch.content.None? ==> Merge(n, patch, now).content == n.content
    ensures patch.category.None? ==> Merge(n, patch, now).category == n.category
    ensures patch.tags.None? ==> Merge(n, patch, now).tags == n.tags
    ensures patch.backgroundColor.None? ==> Merge(n, patch, now).backgroundColor == n.backgroundColor
    ensures patch.fontFamily.None? ==> Merge(n, patch, now).fontFamily == n.fontFamily
    ensures patch.fontSize.None? ==> Merge(n, patch, now).fontSize == n.fontSize
  {
  }

  /** An empty patch only renews the time stamp. */
  lemma MergeEmptyPatch(n: Note, now: string)
    ensures Merge(n, NoteFields(None, None, None, None, None, None, None, None), now) == n.(updatedAt := now)
  {
  }

  /** `updateNote`: the patch merged, in all three lists, into the entries
      with that id; every other entry stays as it was. */
  function Patched(l: Lists, id: string, patch: NoteFields, now: string): (r: Lists)
    ensures |r.notes| == |l.notes| && |r.archived| == |l.archived| && |r.trashed| == |l.trashed|
    ensures forall i :: 0 <= i < |l.notes| ==>
      r.notes[i] == if l.notes[i].id == id then Merge(l.notes[i], patch, now) else l.notes[i]
    ensures forall i :: 0 <= i < |l.archived| ==>
      r.archived[i] == if l.archived[i].id == id then Merge(l.archived[i], patch, now) else l.archived[i]
    ensures forall i :: 0 <= i < |l.trashed| ==>
      r.trashed[i] == if l.trashed[i].id == id then Merge(l.trashed[i], patch, now) else l.trashed[i]
  {
    var f := (n: Note) => Merge(n, patch, now);
    Lists(UpdateWhere(l.notes, id, NoteId, f), UpdateWhere(l.archived, id, NoteId, f),
          UpdateWhere(l.trashed, id, NoteId, f))
  }

  // ---- the lists stay well formed ----

  /** Prepending a note whose id is in none of the lists keeps them well
      formed, wherever it goes. */
  lemma PrependFresh(row: Note, s: seq<Note>)
    requires UniqueKeys(s, NoteId) && row.id !in Ids(s)
    ensures UniqueKeys([row] + s, NoteId) && Ids([row] + s) == Ids(s) + {row.id}
  {
    UniqueKeysCons(row, s, NoteId);
    KeySetCons(row, s, NoteId);
  }

  lemma Removed(s: seq<Note>, id: string)
    requires UniqueKeys(s, NoteId)
    ensures UniqueKeys(WithoutKey(s, id, NoteId), NoteId) && Ids(WithoutKey(s, id, NoteId)) == Ids(s) - {id}
  {
    WithoutKeyUnique(s, id, NoteId);
    WithoutKeyKeySet(s, id, NoteId);
  }

  /** Archiving an active note (the server returns the row with that id)
      leaves it in the archive only. */
  lemma ArchiveKeepsWellFormed(l: Lists, id: string, row: Note)
    requires WellFormed(l) && id in Ids(l.notes) && row.id == id
    ensures WellFormed(Archived(l, id, row))
    ensures id in Ids(Archived(l, id, row).archived) && id !in Ids(Archived(l, id, row).notes)
  {
    Removed(l.notes, id);
    PrependFresh(row, l.archived);
  }

  lemma UnarchiveKeepsWellFormed(l: Lists, id: string, row: Note)
    requires WellFormed(l) && id in Ids(l.archived) && row.id == id
    ensures WellFormed(Unarchived(l, id, row))
    ensures id in Ids(Unarchived(l, id, row).notes) && id !in Ids(Unarchived(l, id, row).archived)
  {
    Removed(l.archived, id);
    PrependFresh(row, l.notes);
  }

  /** Trashing works from the active list and from the archive alike. */
  lemma TrashKeepsWellFormed(l: Lists, id: string, row: Note)
    requires WellFormed(l) && id !in Ids(l.trashed) && row.id == id
    ensures WellFormed(Trashed(l, id, row))
    ensures id in Ids(Trashed(l, id, row).trashed)
    ensures id !in Ids(Trashed(l, id, row).notes) && id !in Ids(Trashed(l, id, row).archived)
  {
    Removed(l.notes, id);
    Removed(l.archived, id);
    PrependFresh(row, l.trashed);
  }

  lemma RestoreKeepsWellFormed(l: Lists, id: string, row: Note)
    requires WellFormed(l) && id in Ids(l.trashed) && row.id == id
    ensures WellFormed(Restored(l, id, row))
    ensures id in Ids(Restored(l, id, row).notes) && id !in Ids(Restored(l, id, row).trashed)
  {
    Removed(l.trashed, id);
    PrependFresh(row, l.notes);
  }

  lemma DeleteKeepsWellFormed(l: Lists, id: string)
    requires WellFormed(l)
    ensures WellFormed(Deleted(l, id))
  {
    Removed(l.notes, id);
    Removed(l.archived, id);
    Removed(l.trashed, id);
  }

  lemma PatchKeepsWellFormed(l: Lists, id: string, patch: NoteFields, now: string)
    requires WellFormed(l)
    ensures WellFormed(Patched(l, id, patch, now))
    ensures Ids(Patched(l, id, patch, now).notes) == Ids(l.notes)
  {
    var f := (n: Note) => Merge(n, patch, now);
    UpdateWhereKeepsKeys(l.notes, id, NoteId, f);
    UpdateWhereKeepsKeys(l.archived, id, NoteId, f);
    UpdateWhereKeepsKeys(l.trashed, id, NoteId, f);
  }

  /** A move touches no other note: every note with another id is in the same
      lists before and after. */
  lemma MovesTouchNoOtherNote(l: Lists, id: string, row: Note, n: Note)
    requires n.id != id && n != row
    ensures n in Archived(l, id, row).notes <==> n in l.notes
    ensures n in Archived(l, id, row).archived <==> n in l.archived
    ensures n in Unarchived(l, id, row).notes <==> n in l.notes
    ensures n in Unarchived(l, id, row).archived <==> n in l.archived
    ensures n in Trashed(l, id, row).notes <==> n in l.notes
    ensures n in Trashed(l, id, row).archived <==> n in l.archived
    ensures n in Trashed(l, id, row).trashed <==> n in l.trashed
    ensures n in Restored(l, id, row).notes <==> n in l.notes
    ensures n in Restored(l, id, row).trashed <==> n in l.trashed
    ensures n in Deleted(l, id).notes <==> n in l.notes
  {
  }

  // ---- remote payloads ----

  /** The row `addNote` inserts. */
  datatype NoteInsert = NoteInsert(
    title: string, subtitle: string, content: string, category: string, tags: seq<string>,
    backgroundColor: string, fontFamily: string, fontSize: string,
    userId: string, createdAt: string, updatedAt: string)

  const DefaultBackground: string := "#ffffff"
  const DefaultFont: string := "JetBrains Mono"
  const DefaultFontSize: string := "16px"

  /** The new row: each missing or empty field defaulted, the content
      encrypted under the user's id, both time stamps `now`. */
  function NewRow(fields: NoteFields, userId: string, now: string, encrypt: Cipher): (row: NoteInsert)
    ensures row.title == OrElse(fields.title, "") && row.subtitle == OrElse(fields.subtitle, "")
    ensures row.content == encrypt(OrElse(fields.content, ""), userId)
    ensures row.category == OrElse(fields.category, "")
    ensures row.tags == (if fields.tags.Some? then fields.tags.value else [])
    ensures row.backgroundColor == OrElse(fields.backgroundColor, DefaultBackground)
    ensures row.fontFamily == OrElse(fields.fontFamily, DefaultFont)
    ensures row.fontSize == OrElse(fields.fontSize, DefaultFontSize)
    ensures row.userId == userId && row.createdAt == now && row.updatedAt == now
  {
    NoteInsert(OrElse(fields.title, ""), OrElse(fields.subtitle, ""),
               encrypt(OrElse(fields.content, ""), userId), OrElse(fields.category, ""),
               if fields.tags.Some? then fields.tags.value else [],
               OrElse(fields.backgroundColor, DefaultBackground), OrElse(fields.fontFamily, DefaultFont),
               OrElse(fields.fontSize, DefaultFontSize), userId, now, now)
  }

  /** An empty form gives the documented defaults. */
  lemma EmptyFormDefaults(userId: string, now: string, encrypt: Cipher)
    ensures NewRow(NoteFields(None, None, None, None, None, None, None, None), userId, now, encrypt)
      == NoteInsert("", "", encrypt("", userId), "", [], "#ffffff", "JetBrains Mono", "16px", userId, now, now)
  {
  }

  /** What `updateNote` sends: the patch with its content encrypted when it
      is non-empty, plus the new time stamp. */
  datatype NoteUpdate = NoteUpdate(fields: NoteFields, updatedAt: string)

  function UpdatePayload(patch: NoteFields, userId: string, now: string, encrypt: Cipher): (u: NoteUpdate)
    ensures u.updatedAt == now
    ensures Truthy(patch.content) ==> u.fields.content == Some(encrypt(patch.content.value, userId))
    ensures !Truthy(patch.content) ==> u.fields.content == patch.content
    ensures u.fields.(content := patch.content) == patch
  {
    NoteUpdate(if Truthy(patch.content) then patch.(content := Some(encrypt(patch.content.value, userId))) else patch, now)
  }

  /** The fetched rows with their content decrypted and nothing else changed. */
  function DecryptContents(rows: seq<Note>, userId: string, decrypt: Cipher): (r: seq<Note>)
    ensures |r| == |rows|
    ensures forall i :: 0 <= i < |rows| ==>
      r[i].content == decrypt(rows[i].content, userId) && r[i].(content := rows[i].content) == rows[i]
  {
    seq(|rows|, i requires 0 <= i < |rows| => rows[i].(content := decrypt(rows[i].content, userId)))
  }

  // ---- the store ----

  class NoteStore {
    var notes: seq<Note>
    var archivedNotes: seq<Note>
    var trashedNotes: seq<Note>
    var loading: bool
    var error: Option<string>

    function Contents(): Lists
      reads this
    {
      Lists(notes, archivedNotes, trashedNotes)
    }

    constructor ()
      ensures Contents() == Lists([], [], []) && WellFormed(Contents()) && !loading && error == None
    {
      notes, archivedNotes, trashedNotes := [], [], [];
      loading, error := false, None;
    }

    /** `fetchNotes`: replace the active list by the fetched rows, decrypted. */
    method FetchNotes(user: Option<User>, reply: Result<seq<Note>, string>, decrypt: Cipher)
      modifies this
      ensures !loading
      ensures user.None? ==> Contents() == old(Contents()) && error == Some("Not authenticated")
      ensures user.Some? && reply.Failure? ==> Contents() == old(Contents()) && error == Some(reply.error)
      ensures user.Some? && reply.Success? ==>
        Contents() == old(Contents()).(notes := DecryptContents(reply.value, user.value.id, decrypt)) && error == None
    {
      loading, error := true, None;
      if user.None? {
        error, loading := Some("Not authenticated"), false;
        return;
      }
      if reply.Failure? {
        error, loading := Some(reply.error), false;
        return;
      }
      notes := DecryptContents(reply.value, user.value.id, decrypt);
      loading := false;
    }

    /** `fetchArchivedNotes`. */
    method FetchArchivedNotes(user: Option<User>, reply: Result<seq<Note>, string>, decrypt: Cipher)
      modifies this
      ensures !loading
      ensures user.None? ==> Contents() == old(Contents()) && error == Some("Not authenticated")
      ensures user.Some? && reply.Failure? ==> Contents() == old(Contents()) && error == Some(reply.error)
      ensures user.Some? && reply.Success? ==>
        Contents() == old(Contents()).(archived := DecryptContents(reply.value, user.value.id, decrypt)) && error == None
    {
      loading, error := true, None;
      if user.None? {
        error, loading := Some("Not authenticated"), false;
        return;
      }
      if reply.Failure? {
        error, loading := Some(reply.error), false;
        return;
      }
      archivedNotes := DecryptContents(reply.value, user.value.id, decrypt);
      loading := false;
    }

    /** `fetchTrashedNotes`. */
    method FetchTrashedNotes(user: Option<User>, reply: Result<seq<Note>, string>, decrypt: Cipher)
      modifies this
      ensures !loading
      ensures user.None? ==> Contents() == old(Contents()) && error == Some("Not authenticated")
      ensures user.Some? && reply.Failure? ==> Contents() == old(Contents()) && error == Some(reply.error)
      ensures user.Some? && reply.Success? ==>
        Contents() == old(Contents()).(trashed := DecryptContents(reply.value, user.value.id, decrypt)) && error == None
    {
      loading, error := true, None;
      if user.None? {
        error, loading := Some("Not authenticated"), false;
        return;
      }
      if reply.Failure? {
        error, loading := Some(reply.error), false;
        return;
      }
      trashedNotes := DecryptContents(reply.value, user.value.id, decrypt);
      loading := false;
    }

    /** `addNote`. `auth` is the answer of `getUser`, `testError` that of the
        probe query, `inserted` that of the insert (`None`: no row came
        back). The result is the row sent to the insert, if it got that far.
        Errors are recorded, not passed on. */
    method AddNote(fields: NoteFields, auth: Result<Option<User>, string>, now: string,
                   testError: Option<string>, inserted: Result<Option<Note>, string>,
                   encrypt: Cipher, decrypt: Cipher)
      returns (sent: Option<NoteInsert>)
      modifies this
      ensures !loading
      ensures auth.Failure? ==>
        (&& sent == None && Contents() == old(Contents())
         && error == Some("Authentication error: " + auth.error))
      ensures auth.Success? && auth.value.None? ==>
        sent == None && Contents() == old(Contents()) && error == Some("Not authenticated")
      ensures auth.Success? && auth.value.Some? && testError.Some? ==>
        (&& sent == None && Contents() == old(Contents())
         && error == Some("Database access error: " + testError.value))
      ensures auth.Success? && auth.value.Some? && testError.None? ==>
        sent == Some(NewRow(fields, auth.value.value.id, now, encrypt))
      ensures sent.Some? && inserted.Failure? ==>
        Contents() == old(Contents()) && error == Some("Failed to add note: " + inserted.error)
      ensures sent.Some? && inserted.Success? && inserted.value.None? ==>
        Contents() == old(Contents()) && error == Some("No data returned from insert operation")
      ensures sent.Some? && inserted.Success? && inserted.value.Some? ==>
        (&& error == None
         && Contents() == old(Contents()).(notes := [inserted.value.value.(content :=
              decrypt(inserted.value.value.content, auth.value.value.id))] + old(notes)))
    {
      loading, error := true, None;
      if auth.Failure? {
        error, loading := Some("Authentication error: " + auth.error), false;
        return None;
      }
      if auth.value.None? {
        error, loading := Some("Not authenticated"), false;
        return None;
      }
      var user := auth.value.value;
      if testError.Some? {
        error, loading := Some("Database access error: " + testError.value), false;
        return None;
      }
      sent := Some(NewRow(fields, user.id, now, encrypt));
      if inserted.Failure? {
        error, loading := Some("Failed to add note: " + inserted.error), false;
        return;
      }
      if inserted.value.None? {
        error, loading := Some("No data returned from insert operation"), false;
        return;
      }
      var row := inserted.value.value;
      notes := [row.(content := decrypt(row.content, user.id))] + notes;
      error := None;
      loading := false;
    }

    /** `updateNote`: the payload goes out with its content encrypted; the
        lists get the plaintext patch. The result is the payload, if sent. */
    method UpdateNote(id: string, patch: NoteFields, user: Option<User>, now: string,
                      updateError: Option<string>, encrypt: Cipher)
      returns (sent: Option<NoteUpdate>)
      modifies this
      ensures !loading
      ensures user.None? ==> sent == None && Contents() == old(Contents()) && error == Some("Not authenticated")
      ensures user.Some? ==> sent == Some(UpdatePayload(patch, user.value.id, now, encrypt))
      ensures user.Some? && updateError.Some? ==> Contents() == old(Contents()) && error == updateError
      ensures user.Some? && updateError.None? ==> Contents() == Patched(old(Contents()), id, patch, now) && error == None
    {
      loading, error := true, None;
      if user.None? {
        error, loading := Some("Not authenticated"), false;
        return None;
      }
      sent := Some(UpdatePayload(patch, user.value.id, now, encrypt));
      if updateError.Some? {
        error, loading := updateError, false;
        return;
      }
      var lists := Patched(Contents(), id, patch, now);
      notes, archivedNotes, trashedNotes := lists.notes, lists.archived, lists.trashed;
      assert Contents() == lists;
      loading := false;
    }

    /** `archiveNote`; `reply` is the updated row or the backend's error. */
    method ArchiveNote(id: string, reply: Result<Note, string>)
      modifies this
      ensures !loading
      ensures reply.Failure? ==> Contents() == old(Contents()) && error == Some(reply.error)
      ensures reply.Success? ==> Contents() == Archived(old(Contents()), id, reply.value) && error == None
    {
      loading, error := true, None;
      if reply.Failure? {
        error, loading := Some(reply.error), false;
        return;
      }
      notes := WithoutKey(notes, id, NoteId);
      archivedNotes := [reply.value] + archivedNotes;
      loading := false;
    }

    method UnarchiveNote(id: string, reply: Result<Note, string>)
      modifies this
      ensures !loading
      ensures reply.Failure? ==> Contents() == old(Contents()) && error == Some(reply.error)
      ensures reply.Success? ==> Contents() == Unarchived(old(Contents()), id, reply.value) && error == None
    {
      loading, error := true, None;
      if reply.Failure? {
        error, loading := Some(reply.error), false;
        return;
      }
      archivedNotes := WithoutKey(archivedNotes, id, NoteId);
      notes := [reply.value] + notes;
      loading := false;
    }

    method MoveToTrash(id: string, reply: Result<Note, string>)
      modifies this
      ensures !loading
      ensures reply.Failure? ==> Contents() == old(Contents()) && error == Some(reply.error)
      ensures reply.Success? ==> Contents() == Trashed(old(Contents()), id, reply.value) && error == None
    {
      loading, error := true, None;
      if reply.Failure? {
        error, loading := Some(reply.error), false;
        return;
      }
      notes := WithoutKey(notes, id, NoteId);
      archivedNotes := WithoutKey(archivedNotes, id, NoteId);
      trashedNotes := [reply.value] + trashedNotes;
      loading := false;
    }

    method RestoreFromTrash(id: string, reply: Result<Note, string>)
      modifies this
      ensures !loading
      ensures reply.Failure? ==> Contents() == old(Contents()) && error == Some(reply.error)
      ensures reply.Success? ==> Contents() == Restored(old(Contents()), id, reply.value) && error == None
    {
      loading, error := true, None;
      if reply.Failure? {
        error, loading := Some(reply.error), false;
        return;
      }
      trashedNotes := WithoutKey(trashedNotes, id, NoteId);
      notes := [reply.value] + notes;
      loading := false;
    }

    /** `deleteNote`; `deleteError` is the backend's answer to the delete. */
    method DeleteNote(id: string, deleteError: Option<string>)
      modifies this
      ensures !loading
      ensures deleteError.Some? ==> Contents() == old(Contents()) && error == deleteError
      ensures deleteError.None? ==> Contents() == Deleted(old(Contents()), id) && error == None
    {
      loading, error := true, None;
      if deleteError.Some? {
        error, loading := deleteError, false;
        return;
      }
      notes := WithoutKey(notes, id, NoteId);
      archivedNotes := WithoutKey(archivedNotes, id, NoteId);
      trashedNotes := WithoutKey(trashedNotes, id, NoteId);
      loading := false;
    }

    /** `permanentlyDelete` is `deleteNote`. */
    method PermanentlyDelete(id: string, deleteError: Option<string>)
      modifies this
      ensures !loading
      ensures deleteError.Some? ==> Contents() == old(Contents()) && error == deleteError
      ensures deleteError.None? ==> Contents() == Deleted(old(Contents()), id) && error == None
    {
      DeleteNote(id, deleteError);
    }
  }
}
