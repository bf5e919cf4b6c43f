/** The authentication store: the signed-in user and session, the session's
    one-time code that gates every password reveal and the account deletion,
    and the deletion itself, a fixed sequence of backend calls of which only
    the last stage can abort. */
module AuthStore {
  import opened Wrappers
  import opened Types
  import opened Text

  // ---- the one-time code ----

  /** `Math.floor(Math.random() * 900000)`: the random part of a code. */
  type Draw = n: int | 0 <= n < 900000

  function DigitChar(d: int): (c: char)
    requires 0 <= d < 10
    ensures IsDigit(c) && c as int - '0' as int == d
  {
    ('0' as int + d) as char
  }

  /** `n.toString()` for a non-negative integer: its decimal digits, most
      significant first, with no leading zero. */
  function DecimalString(n: nat): (r: string)
    ensures |r| >= 1
    ensures forall i :: 0 <= i < |r| ==> IsDigit(r[i])
    ensures n > 0 ==> r[0] != '0'
  {
    if n < 10 then [DigitChar(n)] else DecimalString(n / 10) + [DigitChar(n % 10)]
  }

  predicate AllDigits(s: string) {
    forall i :: 0 <= i < |s| ==> IsDigit(s[i])
  }

  /** The number a string of decimal digits denotes. */
  function DecimalValue(s: string): nat
    requires AllDigits(s)
  {
    if s == [] then 0 else DecimalValue(s[..|s| - 1]) * 10 + (s[|s| - 1] as int - '0' as int)
  }

  /** Reading the digits back gives the number. */
  lemma {:induction false} DecimalRoundTrip(n: nat)
    ensures DecimalValue(DecimalString(n)) == n
  {
    if n >= 10 {
      DecimalRoundTrip(n / 10);
      var front := DecimalString(n / 10);
      var r := front + [DigitChar(n % 10)];
      assert r[..|r| - 1] == front;
    }
  }

  function Pow10(k: nat): (p: nat)
    ensures p >= 1
  {
    if k == 0 then 1 else 10 * Pow10(k - 1)
  }

  /** A number with `k + 1` digits has a decimal string of that length. */
  lemma {:induction false} DecimalLength(n: nat, k: nat)
    requires Pow10(k) <= n < Pow10(k + 1)
    ensures |DecimalString(n)| == k + 1
  {
    if k > 0 {
      var p := Pow10(k - 1);
      assert Pow10(k) == 10 * p && Pow10(k + 1) == 100 * p;
      assert p <= n / 10 < 10 * p;
      DecimalLength(n / 10, k - 1);
    }
  }

  /** A code as the store keeps it: six decimal digits, the first not zero. */
  predicate IsSessionCode(s: string) {
    |s| == 6 && AllDigits(s) && s[0] != '0'
  }

  /** The code generated from a draw: `(100000 + n).toString()`. */
  function CodeFromDraw(n: Draw): (code: string)
    ensures IsSessionCode(code)
    ensures DecimalValue(code) == 100000 + n
  {
    DecimalLength(100000 + n, 5);
    DecimalRoundTrip(100000 + n);
    DecimalString(100000 + n)
  }

  /** Different draws give different codes, so the code determines the draw. */
  lemma CodeFromDrawInjective(m: Draw, n: Draw)
    ensures CodeFromDraw(m) == CodeFromDraw(n) <==> m == n
  {
  }

  // ---- account deletion ----

  /** A call the deletion makes to the backend, in the order it makes them. */
  datatype RemoteCall =
    | DeleteRows(table: string, userId: string)
    | ListStorage(folder: string)
    | RemoveStorage(paths: seq<string>)
    | AdminDeleteUser(userId: string)
    | SignOutEverywhere

  /** What the backend and the environment answer to the deletion's calls. */
  datatype DeletionReplies = DeletionReplies(
    profileError: Option<string>,
    filesError: Option<string>,
    notesError: Option<string>,
    passwordsError: Option<string>,
    storageListing: Option<seq<string>>,
    storageError: Option<string>,
    serviceRoleKey: Option<string>,
    adminError: Option<string>)

  const TablesDeleted: seq<string> := ["user_profiles", "files", "notes", "passwords"]

  /** The guards deletion checks before touching anything, first failure
      first: a user, a code, and the typed code equal to it. */
  function DeletionGuard(user: Option<User>, oneTimeCode: Option<string>, code: string): (err: Option<string>)
    ensures err.None? <==> user.Some? && Truthy(oneTimeCode) && code == oneTimeCode.value
    ensures user.None? ==> err == Some("Not authenticated")
    ensures user.Some? && !Truthy(oneTimeCode) ==> err == Some("No one-time code generated")
    ensures user.Some? && Truthy(oneTimeCode) && code != oneTimeCode.value ==> err == Some("Invalid one-time code")
  {
    if user.None? then Some("Not authenticated")
    else if !Truthy(oneTimeCode) then Some("No one-time code generated")
    else if code != oneTimeCode.value then Some("Invalid one-time code")
    else None
  }

  /** The storage paths removed: every listed name inside the user's folder. */
  function StoragePaths(userId: string, names: seq<string>): (paths: seq<string>)
    ensures |paths| == |names|
    ensures forall i :: 0 <= i < |names| ==>
      StartsWith(paths[i], userId + "/") && paths[i][|userId| + 1..] == names[i]
  {
    seq(|names|, i requires 0 <= i < |names| => userId + "/" + names[i])
  }

  /** The storage removal call, made only for a non-empty listing. */
  function StorageRemoval(userId: string, listing: Option<seq<string>>): (calls: seq<RemoteCall>)
    ensures calls == [] <==> listing.None? || listing.value == []
    ensures calls != [] ==> calls == [RemoveStorage(StoragePaths(userId, listing.value))]
  {
    if listing.Some? && |listing.value| > 0 then [RemoveStorage(StoragePaths(userId, listing.value))]
    else []
  }

  /** Why the final stage aborts, or `None` when the auth user was deleted. */
  function DeletionFailure(replies: DeletionReplies): (err: Option<string>)
    ensures err.None? <==> Truthy(replies.serviceRoleKey) && replies.adminError.None?
    ensures !Truthy(replies.serviceRoleKey) ==> err == Some("Service role key is not configured")
    ensures Truthy(replies.serviceRoleKey) && replies.adminError.Some? ==>
      err == Some("Failed to delete account completely")
  {
    if !Truthy(replies.serviceRoleKey) then Some("Service role key is not configured")
    else if replies.adminError.Some? then Some("Failed to delete account completely")
    else None
  }

  /** The calls made once the guards pass: the four row deletions, the
      storage listing and removal, then the auth user and the global sign-out
      as far as the final stage gets. */
  function DeletionCalls(userId: string, replies: DeletionReplies): (calls: seq<RemoteCall>)
    ensures |calls| >= 5
    ensures forall i :: 0 <= i < 4 ==> calls[i] == DeleteRows(TablesDeleted[i], userId)
    ensures calls[4] == ListStorage(userId)
    ensures AdminDeleteUser(userId) in calls <==> Truthy(replies.serviceRoleKey)
    ensures SignOutEverywhere in calls <==> DeletionFailure(replies).None?
  {
    var head := DeletionHead(userId, replies.storageListing);
    assert forall c :: c in head ==> !c.AdminDeleteUser? && !c.SignOutEverywhere?;
    head + DeletionTail(userId, replies)
  }

  /** The row deletions, the storage listing and the storage removal. */
  function DeletionHead(userId: string, listing: Option<seq<string>>): seq<RemoteCall> {
    [DeleteRows(TablesDeleted[0], userId), DeleteRows(TablesDeleted[1], userId),
     DeleteRows(TablesDeleted[2], userId), DeleteRows(TablesDeleted[3], userId),
     ListStorage(userId)] + StorageRemoval(userId, listing)
  }

  /** The final stage, as far as it gets. */
  function DeletionTail(userId: string, replies: DeletionReplies): seq<RemoteCall> {
    if !Truthy(replies.serviceRoleKey) then []
    else if replies.adminError.Some? then [AdminDeleteUser(userId)]
    else [AdminDeleteUser(userId), SignOutEverywhere]
  }

  /** A failing row deletion or storage removal is only logged: the calls
      made and the outcome do not depend on those replies. */
  lemma StepFailuresDoNotStopDeletion(userId: string, a: DeletionReplies, b: DeletionReplies)
    requires a.storageListing == b.storageListing
    requires a.serviceRoleKey == b.serviceRoleKey && a.adminError == b.adminError
    ensures DeletionCalls(userId, a) == DeletionCalls(userId, b)
    ensures DeletionFailure(a) == DeletionFailure(b)
  {
  }

  /** Every stage before the final one is attempted even when that stage
      aborts: the abort comes after all data deletions. The admin deletion
      and the sign-out are the last calls, in that order, and there are at
      most eight calls. */
  lemma FinalStageComesLast(userId: string, replies: DeletionReplies)
    ensures var calls := DeletionCalls(userId, replies);
      && calls[..5] == DeletionCalls(userId, replies.(serviceRoleKey := None))[..5]
      && (replies.storageListing.Some? && replies.storageListing.value != [] ==>
            RemoveStorage(StoragePaths(userId, replies.storageListing.value)) in calls)
    ensures |DeletionCalls(userId, replies)| <= 8
    ensures var calls := DeletionCalls(userId, replies);
      SignOutEverywhere in calls ==>
        calls[|calls| - 1] == SignOutEverywhere && calls[|calls| - 2] == AdminDeleteUser(userId)
    ensures var calls := DeletionCalls(userId, replies);
      AdminDeleteUser(userId) in calls && DeletionFailure(replies).Some? ==>
        calls[|calls| - 1] == AdminDeleteUser(userId)
  {
    var calls := DeletionCalls(userId, replies);
    var removal := StorageRemoval(userId, replies.storageListing);
    if removal != [] {
      assert calls[5] == removal[0];
    }
  }

  // ---- the store ----

  /** A row of `user_profiles` as the session start reads it. */
  datatype ProfileRow = ProfileRow(oneTimeCode: Option<string>, codeShown: Option<bool>)

  class AuthStore {
    var user: Option<User>
    var session: Option<Session>
    var loading: bool
    var initialized: bool
    var oneTimeCode: Option<string>
    var oneTimeCodeShown: bool
    var error: Option<string>

    constructor ()
      ensures user == None && session == None && loading && !initialized
      ensures oneTimeCode == None && !oneTimeCodeShown && error == None
    {
      user := None;
      session := None;
      loading := true;
      initialized := false;
      oneTimeCode := None;
      oneTimeCodeShown := false;
      error := None;
    }

    /** `generateOneTimeCode`: a fresh six-digit code, not yet shown. */
    method GenerateOneTimeCode(draw: Draw)
      modifies this
      ensures oneTimeCode == Some(CodeFromDraw(draw)) && IsSessionCode(oneTimeCode.value)
      ensures !oneTimeCodeShown && !loading && error == None
      ensures user == old(user) && session == old(session) && initialized == old(initialized)
    {
      loading, error := true, None;
      oneTimeCode, oneTimeCodeShown := Some(CodeFromDraw(draw)), false;
      loading := false;
    }

    /** `markOneTimeCodeAsShown`: with a user, the flag is set only once the
        profile update succeeded; a failure is logged and changes nothing. */
    method MarkOneTimeCodeAsShown(updateError: Option<string>)
      modifies this
      ensures oneTimeCodeShown == (old(oneTimeCodeShown) || (old(user).Some? && updateError.None?))
      ensures user == old(user) && session == old(session) && loading == old(loading)
      ensures initialized == old(initialized) && oneTimeCode == old(oneTimeCode) && error == old(error)
    {
      if user.None? {
        return;
      }
      if updateError.None? {
        oneTimeCodeShown := true;
      }
    }

    /** `initializeSession`: adopt the current session and, when its profile
        holds a stored code, the decrypted code and its shown flag. A failing
        session read only ends the loading. */
    method InitializeSession(current: Result<Option<Session>, string>, profile: Result<ProfileRow, string>,
                             decrypt: (string, string) -> string)
      modifies this
      ensures !loading && initialized && error == old(error)
      ensures current.Failure? ==>
        user == old(user) && session == old(session)
        && oneTimeCode == old(oneTimeCode) && oneTimeCodeShown == old(oneTimeCodeShown)
      ensures current.Success? ==>
        (&& session == current.value
         && user == (if current.value.Some? then Some(current.value.value.user) else None))
      ensures current.Success? && current.value.Some? && profile.Success? && Truthy(profile.value.oneTimeCode) ==>
        oneTimeCode == Some(decrypt(profile.value.oneTimeCode.value, current.value.value.user.id))
        && oneTimeCodeShown == (profile.value.codeShown == Some(true))
      ensures !(current.Success? && current.value.Some? && profile.Success? && Truthy(profile.value.oneTimeCode)) ==>
        oneTimeCode == old(oneTimeCode) && oneTimeCodeShown == old(oneTimeCodeShown)
    {
      if current.Failure? {
        loading, initialized := false, true;
        return;
      }
      var s := current.value;
      if s.Some? && profile.Success? && Truthy(profile.value.oneTimeCode) {
        oneTimeCode := Some(decrypt(profile.value.oneTimeCode.value, s.value.user.id));
        oneTimeCodeShown := profile.value.codeShown == Some(true);
      }
      session := s;
      user := if s.Some? then Some(s.value.user) else None;
      loading, initialized := false, true;
    }

    /** `refreshSession`: keep the current session, or else refresh it; any
        error signs the user out locally and is passed on. */
    method RefreshSession(current: Result<Option<Session>, string>, refreshed: Result<Option<Session>, string>)
      returns (r: Result<Option<Session>, string>)
      modifies this
      ensures r.Failure? <==> current.Failure? || (current.value.None? && refreshed.Failure?)
      ensures r.Failure? ==>
        (&& user == None && session == None
         && r.error == (if current.Failure? then current.error else refreshed.error))
      ensures r.Success? && r.value.Some? ==> session == r.value && user == Some(r.value.value.user)
      ensures r.Success? && r.value.None? ==> user == old(user) && session == old(session)
      ensures r.Success? ==> r.value == (if current.value.Some? then current.value else refreshed.value)
      ensures loading == old(loading) && initialized == old(initialized) && error == old(error)
      ensures oneTimeCode == old(oneTimeCode) && oneTimeCodeShown == old(oneTimeCodeShown)
    {
      if current.Failure? {
        user, session := None, None;
        return Failure(current.error);
      }
      if current.value.None? {
        if refreshed.Failure? {
          user, session := None, None;
          return Failure(refreshed.error);
        }
        if refreshed.value.Some? {
          session, user := refreshed.value, Some(refreshed.value.value.user);
        }
        return Success(refreshed.value);
      }
      session, user := current.value, Some(current.value.value.user);
      return Success(current.value);
    }

    /** `deleteAccount`: the guards, then every deletion step in order with
        its failure only logged, then the final stage; the local session is
        cleared only when the final stage succeeded. */
    method DeleteAccount(code: string, replies: DeletionReplies) returns (outcome: Outcome<string>, calls: seq<RemoteCall>)
      modifies this
      ensures var guard := DeletionGuard(old(user), old(oneTimeCode), code);
        && (guard.Some? ==> outcome == Fail(guard.value) && calls == [])
        && (guard.None? ==>
              (&& calls == DeletionCalls(old(user).value.id, replies)
               && outcome == (if DeletionFailure(replies).Some? then Fail(DeletionFailure(replies).value) else Pass)))
      ensures outcome.Pass? ==> user == None && session == None && oneTimeCode == None && error == None
      ensures outcome.Fail? ==>
        (&& user == old(user) && session == old(session) && oneTimeCode == old(oneTimeCode)
         && error == Some(outcome.error))
      ensures !loading && initialized == old(initialized) && oneTimeCodeShown == old(oneTimeCodeShown)
    {
      loading, error := true, None;
      var guard := DeletionGuard(user, oneTimeCode, code);
      if guard.Some? {
        error, loading := guard, false;
        return Fail(guard.value), [];
      }
      var uid := user.value.id;
      calls := [DeleteRows("user_profiles", uid)];
      calls := calls + [DeleteRows("files", uid)];
      calls := calls + [DeleteRows("notes", uid)];
      calls := calls + [DeleteRows("passwords", uid)];
      calls := calls + [ListStorage(uid)];
      if replies.storageListing.Some? && |replies.storageListing.value| > 0 {
        calls := calls + [RemoveStorage(StoragePaths(uid, replies.storageListing.value))];
      }
      assert calls == DeletionHead(uid, replies.storageListing);
      var tail;
      outcome, tail := FinalStage(uid, replies);
      calls := calls + tail;
    }

    /** The final stage of `deleteAccount`: check the service key, delete the
        auth user, then sign out everywhere and clear the local session. */
    method FinalStage(uid: string, replies: DeletionReplies) returns (outcome: Outcome<string>, calls: seq<RemoteCall>)
      requires error == None
      modifies this
      ensures calls == DeletionTail(uid, replies)
      ensures outcome == (if DeletionFailure(replies).Some? then Fail(DeletionFailure(replies).value) else Pass)
      ensures outcome.Pass? ==> user == None && session == None && oneTimeCode == None && error == None
      ensures outcome.Fail? ==>
        (&& user == old(user) && session == old(session) && oneTimeCode == old(oneTimeCode)
         && error == Some(outcome.error))
      ensures !loading && initialized == old(initialized) && oneTimeCodeShown == old(oneTimeCodeShown)
    {
      if !Truthy(replies.serviceRoleKey) {
        error, loading := Some("Service role key is not configured"), false;
        return Fail("Service role key is not configured"), [];
      }
      calls := [AdminDeleteUser(uid)];
      if replies.adminError.Some? {
        error, loading := Some("Failed to delete account completely"), false;
        return Fail("Failed to delete account completely"), calls;
      }
      user, session, oneTimeCode := None, None, None;
      calls := calls + [SignOutEverywhere];
      loading := false;
      outcome := Pass;
    }
  }
}
