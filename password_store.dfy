/** The password store: the user's stored passwords, kept in plaintext on the
    client and encrypted under the user's id in the `passwords` table. */
module PasswordStore {
  import opened Wrappers
  import opened Types
  import opened Seqs

  /** A database error: the backend's error code and message. */
  datatype DbError = DbError(code: string, message: string)

  const NotSignedIn: string := "Not authenticated. Please sign in."
  const MissingFields: string := "Title, username, and password are required"
  const TableMissing: string := "Database table not found. Please ensure the database is properly set up."
  const NoData: string := "No data returned from insert operation"

  /** `addPassword` refuses an entry without a title, a user name or a
      password before it asks the backend anything. */
  predicate Complete(fields: PasswordFields) {
    Truthy(fields.title) && Truthy(fields.username) && Truthy(fields.password)
  }

  /** The message an insert error becomes: a missing table is named as such,
      anything else is prefixed. */
  function InsertErrorMessage(e: DbError): (m: string)
    ensures e.code == "42P01" ==> m == TableMissing
    ensures e.code != "42P01" ==> m == "Failed to save password: " + e.message
  {
    if e.code == "42P01" then TableMissing else "Failed to save password: " + e.message
  }

  /** The message never reads as a success and never loses the backend's
      reason except for the missing table. */
  lemma InsertErrorMessageDistinct(e: DbError)
    ensures InsertErrorMessage(e) != NoData && InsertErrorMessage(e) != MissingFields
    ensures InsertErrorMessage(e) != TableMissing ==> e.code != "42P01"
  {
    var m := InsertErrorMessage(e);
    if e.code != "42P01" {
      assert m[0] == 'F' && m[1] == 'a' && m[2] == 'i';
    }
  }

  /** The row that goes to the insert: the submitted fields with the password
      encrypted, the owner and the creation time. */
  datatype PasswordInsert = PasswordInsert(fields: PasswordFields, userId: string, createdAt: string)

  function InsertRow(fields: PasswordFields, userId: string, now: string, encrypt: Cipher): (row: PasswordInsert)
    requires fields.password.Some?
    ensures row.fields.password == Some(encrypt(fields.password.value, userId))
    ensures row.fields.(password := fields.password) == fields
    ensures row.userId == userId && row.createdAt == now
  {
    PasswordInsert(fields.(password := Some(encrypt(fields.password.value, userId))), userId, now)
  }

  /** What `updatePassword` sends: the patch, its password encrypted when it
      is non-empty. */
  function UpdatePayload(patch: PasswordFields, userId: string, encrypt: Cipher): (u: PasswordFields)
    ensures Truthy(patch.password) ==> u.password == Some(encrypt(patch.password.value, userId))
    ensures !Truthy(patch.password) ==> u == patch
    ensures u.(password := patch.password) == patch
  {
    if Truthy(patch.password) then patch.(password := Some(encrypt(patch.password.value, userId))) else patch
  }

  /** `{ ...p, ...patch }` with the plaintext patch. */
  function MergePassword(p: Password, patch: PasswordFields): (r: Password)
    ensures r.id == p.id && r.userId == p.userId && r.createdAt == p.createdAt
    ensures r.website == p.website && r.updatedAt == p.updatedAt
  {
    p.(title := Pick(patch.title, p.title), username := Pick(patch.username, p.username),
       password := Pick(patch.password, p.password), url := PickOption(patch.url, p.url),
       notes := PickOption(patch.notes, p.notes), category := PickOption(patch.category, p.category))
  }

  /** Every field the patch carries takes the patch's value and every other
      keeps the entry's; in particular the client keeps the password the
      user typed, not the ciphertext that was sent. */
  lemma MergeKeepsPlaintext(p: Password, patch: PasswordFields)
    ensures patch.password.Some? ==> MergePassword(p, patch).password == patch.password.value
    ensures patch.password.None? ==> MergePassword(p, patch).password == p.password
    ensures patch.title.Some? ==> MergePassword(p, patch).title == patch.title.value
    ensures patch.title.None? ==> MergePassword(p, patch).title == p.title
    ensures patch.username.Some? ==> MergePassword(p, patch).username == patch.username.value
    ensures patch.username.None? ==> MergePassword(p, patch).username == p.username
    ensures patch.url.Some? ==> MergePassword(p, patch).url == patch.url
    ensures patch.url.None? ==> MergePassword(p, patch).url == p.url
    ensures patch.notes.Some? ==> MergePassword(p, patch).notes == patch.notes
    ensures patch.notes.None? ==> MergePassword(p, patch).notes == p.notes
    ensures patch.category.Some? ==> MergePassword(p, patch).category == patch.category
    ensures patch.category.None? ==> MergePassword(p, patch).category == p.category
  {
  }

  /** The fetched rows with the password decrypted and nothing else changed. */
  function DecryptPasswords(rows: seq<Password>, userId: string, decrypt: Cipher): (r: seq<Password>)
    ensures |r| == |rows|
    ensures forall i :: 0 <= i < |rows| ==>
      r[i].password == decrypt(rows[i].password, userId) && r[i].(password := rows[i].password) == rows[i]
  {
    seq(|rows|, i requires 0 <= i < |rows| => rows[i].(password := decrypt(rows[i].password, userId)))
  }

  /** The list after a confirmed update. */
  function Updated(ps: seq<Password>, id: string, patch: PasswordFields): (r: seq<Password>)
    ensures |r| == |ps|
    ensures forall i :: 0 <= i < |ps| ==> r[i] == if ps[i].id == id then MergePassword(ps[i], patch) else ps[i]
  {
    UpdateWhere(ps, id, PasswordId, (p: Password) => MergePassword(p, patch))
  }

  /** Updates keep the set of ids, and with it their uniqueness. */
  lemma UpdateKeepsIds(ps: seq<Password>, id: string, patch: PasswordFields)
    ensures KeySet(Updated(ps, id, patch), PasswordId) == KeySet(ps, PasswordId)
    ensures UniqueKeys(ps, PasswordId) ==> UniqueKeys(Updated(ps, id, patch), PasswordId)
  {
    UpdateWhereKeepsKeys(ps, id, PasswordId, (p: Password) => MergePassword(p, patch));
  }

  /** Deletion removes exactly that id and keeps the others unique. */
  lemma DeleteRemovesId(ps: seq<Password>, id: string)
    ensures KeySet(WithoutKey(ps, id, PasswordId), PasswordId) == KeySet(ps, PasswordId) - {id}
    ensures UniqueKeys(ps, PasswordId) ==> UniqueKeys(WithoutKey(ps, id, PasswordId), PasswordId)
  {
    WithoutKeyKeySet(ps, id, PasswordId);
    if UniqueKeys(ps, PasswordId) {
      WithoutKeyUnique(ps, id, PasswordId);
    }
  }

  /** Adding a row whose id is new keeps the ids unique. */
  lemma AddKeepsUnique(row: Password, ps: seq<Password>)
    requires UniqueKeys(ps, PasswordId) && row.id !in KeySet(ps, PasswordId)
    ensures UniqueKeys([row] + ps, PasswordId)
    ensures KeySet([row] + ps, PasswordId) == KeySet(ps, PasswordId) + {row.id}
  {
    UniqueKeysCons(row, ps, PasswordId);
    KeySetCons(row, ps, PasswordId);
  }

  class PasswordStore {
    var passwords: seq<Password>
    var loading: bool
    var error: Option<string>

    constructor ()
      ensures passwords == [] && !loading && error == None
    {
      passwords, loading, error := [], false, None;
    }

    /** `fetchPasswords`. Unlike the other operations it does not clear an
        earlier error when it starts. */
    method FetchPasswords(user: Option<User>, reply: Result<seq<Password>, string>, decrypt: Cipher)
      modifies this
      ensures !loading
      ensures user.None? ==> passwords == old(passwords) && error == Some("Not authenticated")
      ensures user.Some? && reply.Failure? ==> passwords == old(passwords) && error == Some(reply.error)
      ensures user.Some? && reply.Success? ==>
        passwords == DecryptPasswords(reply.value, user.value.id, decrypt) && error == None
    {
      loading := true;
      if user.None? {
        error, loading := Some("Not authenticated"), false;
        return;
      }
      if reply.Failure? {
        error, loading := Some(reply.error), false;
        return;
      }
      passwords := DecryptPasswords(reply.value, user.value.id, decrypt);
      error := None;
      loading := false;
    }

    /** `addPassword`. Every error is recorded and passed on to the caller
        (`Fail`); `sent` is the row inserted, if it got that far. */
    method AddPassword(fields: PasswordFields, user: Option<User>, now: string,
                       inserted: Result<Option<Password>, DbError>, encrypt: Cipher)
      returns (outcome: Outcome<string>, sent: Option<PasswordInsert>)
      modifies this
      ensures !loading
      ensures outcome.Fail? <==> error.Some?
      ensures outcome.Fail? ==> passwords == old(passwords) && error == Some(outcome.error)
      ensures user.None? ==> outcome == Fail(NotSignedIn) && sent == None
      ensures user.Some? && !Complete(fields) ==> outcome == Fail(MissingFields) && sent == None
      ensures user.Some? && Complete(fields) ==> sent == Some(InsertRow(fields, user.value.id, now, encrypt))
      ensures sent.Some? && inserted.Failure? ==> outcome == Fail(InsertErrorMessage(inserted.error))
      ensures sent.Some? && inserted.Success? && inserted.value.None? ==> outcome == Fail(NoData)
      ensures sent.Some? && inserted.Success? && inserted.value.Some? ==>
        (&& outcome == Pass
         && passwords == [inserted.value.value.(password := fields.password.value)] + old(passwords))
    {
      loading, error := true, None;
      sent := None;
      if user.None? {
        outcome := Fail(NotSignedIn);
      } else if !Complete(fields) {
        outcome := Fail(MissingFields);
      } else {
        sent := Some(InsertRow(fields, user.value.id, now, encrypt));
        if inserted.Failure? {
          outcome := Fail(InsertErrorMessage(inserted.error));
        } else if inserted.value.None? {
          outcome := Fail(NoData);
        } else {
          passwords := [inserted.value.value.(password := fields.password.value)] + passwords;
          outcome := Pass;
        }
      }
      if outcome.Fail? {
        error := Some(outcome.error);
      }
      loading := false;
    }

    /** `updatePassword`; errors are recorded only. */
    method UpdatePassword(id: string, patch: PasswordFields, user: Option<User>,
                          updateError: Option<string>, encrypt: Cipher)
      returns (sent: Option<PasswordFields>)
      modifies this
      ensures !loading
      ensures user.None? ==> sent == None && passwords == old(passwords) && error == Some("Not authenticated")
      ensures user.Some? ==> sent == Some(UpdatePayload(patch, user.value.id, encrypt))
      ensures user.Some? && updateError.Some? ==> passwords == old(passwords) && error == updateError
      ensures user.Some? && updateError.None? ==> passwords == Updated(old(passwords), id, patch) && error == None
    {
      loading := true;
      if user.None? {
        error, loading := Some("Not authenticated"), false;
        return None;
      }
      sent := Some(UpdatePayload(patch, user.value.id, encrypt));
      if updateError.Some? {
        error, loading := updateError, false;
        return;
      }
      passwords := Updated(passwords, id, patch);
      error := None;
      loading := false;
    }

    /** `deletePassword`. */
    method DeletePassword(id: string, deleteError: Option<string>)
      modifies this
      ensures !loading
      ensures deleteError.Some? ==> passwords == old(passwords) && error == deleteError
      ensures deleteError.None? ==> passwords == WithoutKey(old(passwords), id, PasswordId) && error == None
    {
      loading := true;
      if deleteError.Some? {
        error, loading := deleteError, false;
        return;
      }
      passwords := WithoutKey(passwords, id, PasswordId);
      error := None;
      loading := false;
    }
  }
}
