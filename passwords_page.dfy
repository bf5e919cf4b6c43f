/** The Passwords page: the per-password reveal gate that only opens on the
    session's one-time code, the masked display, the search and category
    filter, and the category options. */
module PasswordsPage {
  import opened Wrappers
  import opened Types
  import opened Text
  import Seqs
  import AuthStore
  import PasswordStore
  import NotesPage

  /** What a hidden password shows instead of its text. */
  const Mask: string := "\U{2022}\U{2022}\U{2022}\U{2022}\U{2022}\U{2022}\U{2022}\U{2022}"

  const InvalidCode: string := "Invalid verification code"

  /** `showPasswords[id]`: a missing entry reads as hidden. */
  predicate Shown(shown: map<string, bool>, id: string) {
    id in shown && shown[id]
  }

  /** The page's gate state: `showPasswords`, `showVerificationModal`,
      `verificationCode`, `verificationError` and `passwordToShow`. */
  datatype Gate = Gate(shown: map<string, bool>, promptOpen: bool, code: string, error: string, pending: Option<string>)

  const InitialGate: Gate := Gate(map[], false, "", "", None)

  /** `togglePasswordVisibility`: hide a shown password at once; for a hidden
      one, only open the prompt for it. */
  function Toggle(g: Gate, id: string): (r: Gate)
    ensures Shown(g.shown, id) ==> r == g.(shown := g.shown[id := false])
    ensures !Shown(g.shown, id) ==>
      r == g.(promptOpen := true, code := "", error := "", pending := Some(id))
    ensures forall k :: Shown(r.shown, k) ==> Shown(g.shown, k)
    ensures forall k :: k != id ==> (Shown(r.shown, k) <==> Shown(g.shown, k))
  {
    if Shown(g.shown, id) then g.(shown := g.shown[id := false])
    else g.(pending := Some(id), promptOpen := true, code := "", error := "")
  }

  /** The code typed into the prompt. */
  function TypeCode(g: Gate, code: string): (r: Gate)
    ensures r.code == code && r.shown == g.shown && r.pending == g.pending
  {
    g.(code := code)
  }

  /** `handleVerifyCode` accepts: the typed code is the session code and a
      password is waiting to be shown. */
  predicate Accepts(g: Gate, oneTimeCode: Option<string>) {
    oneTimeCode.Some? && g.code == oneTimeCode.value && Truthy(g.pending)
  }

  /** `handleVerifyCode`: on a match, reveal the waiting password alone and
      close the prompt; otherwise only report the error, as often as asked. */
  function Verify(g: Gate, oneTimeCode: Option<string>): (r: Gate)
    ensures Accepts(g, oneTimeCode) ==>
      (&& r.shown == g.shown[g.pending.value := true]
       && !r.promptOpen && r.code == "" && r.error == "" && r.pending == None)
    ensures !Accepts(g, oneTimeCode) ==> r == g.(error := InvalidCode)
    ensures forall k :: Shown(r.shown, k) ==>
      Shown(g.shown, k) || (Accepts(g, oneTimeCode) && k == g.pending.value)
  {
    if Accepts(g, oneTimeCode) then
      g.(shown := g.shown[g.pending.value := true], promptOpen := false, code := "", error := "", pending := None)
    else
      g.(error := InvalidCode)
  }

  /** Closing the prompt: nothing is revealed and nothing stays pending. */
  function Close(g: Gate): (r: Gate)
    ensures r.shown == g.shown
    ensures !r.promptOpen && r.code == "" && r.error == "" && r.pending == None
  {
    g.(promptOpen := false, code := "", error := "", pending := None)
  }

  /** What the user can do to the gate. */
  datatype GateEvent = ToggleItem(id: string) | Typed(code: string) | Submit | Dismiss

  function Step(g: Gate, e: GateEvent, oneTimeCode: Option<string>): Gate {
    match e
    case ToggleItem(id) => Toggle(g, id)
    case Typed(code) => TypeCode(g, code)
    case Submit => Verify(g, oneTimeCode)
    case Dismiss => Close(g)
  }

  function Run(g: Gate, events: seq<GateEvent>, oneTimeCode: Option<string>): Gate
    decreases |events|
  {
    if events == [] then g else Run(Step(g, events[0], oneTimeCode), events[1..], oneTimeCode)
  }

  /** No sequence of clicks reveals a hidden password unless the session code
      exists and was typed (or already stood in the prompt, or is empty). */
  lemma {:induction false} RevealNeedsCode(g: Gate, events: seq<GateEvent>, oneTimeCode: Option<string>, id: string)
    requires !Shown(g.shown, id) && Shown(Run(g, events, oneTimeCode).shown, id)
    ensures oneTimeCode.Some?
    ensures oneTimeCode.value == g.code || oneTimeCode.value == "" || Typed(oneTimeCode.value) in events
    decreases |events|
  {
    var next := Step(g, events[0], oneTimeCode);
    if !Shown(next.shown, id) {
      RevealNeedsCode(next, events[1..], oneTimeCode, id);
      assert events == [events[0]] + events[1..];
    }
  }

  /** Attempts with wrong codes before the right one. */
  function Attempts(codes: seq<string>): (events: seq<GateEvent>)
    ensures |events| == 2 * |codes|
  {
    if codes == [] then [] else [Typed(codes[0]), Submit] + Attempts(codes[1..])
  }

  /** Wrong codes never lock the prompt: after any number of them, typing the
      session code reveals the waiting password. */
  lemma {:induction false} NoLockout(g: Gate, wrong: seq<string>, oneTimeCode: Option<string>)
    requires oneTimeCode.Some? && Truthy(g.pending)
    requires forall i :: 0 <= i < |wrong| ==> wrong[i] != oneTimeCode.value
    ensures Shown(Run(g, Attempts(wrong) + [Typed(oneTimeCode.value), Submit], oneTimeCode).shown, g.pending.value)
    decreases |wrong|
  {
    var tail := [Typed(oneTimeCode.value), Submit];
    if wrong == [] {
      assert Attempts(wrong) + tail == tail;
      var a := TypeCode(g, oneTimeCode.value);
      assert Run(g, tail, oneTimeCode) == Run(a, [Submit], oneTimeCode);
      assert Run(a, [Submit], oneTimeCode) == Verify(a, oneTimeCode);
    } else {
      var evs := Attempts(wrong) + tail;
      var rest := Attempts(wrong[1..]) + tail;
      assert evs == [Typed(wrong[0])] + ([Submit] + rest);
      var a := TypeCode(g, wrong[0]);
      var b := Verify(a, oneTimeCode);
      assert !Accepts(a, oneTimeCode);
      assert Run(g, evs, oneTimeCode) == Run(a, [Submit] + rest, oneTimeCode);
      assert Run(a, [Submit] + rest, oneTimeCode) == Run(b, rest, oneTimeCode);
      NoLockout(b, wrong[1..], oneTimeCode);
    }
  }

  /** The text shown for a password: its plaintext only when revealed. */
  function DisplayedPassword(shown: map<string, bool>, p: Password): (text: string)
    ensures Shown(shown, p.id) ==> text == p.password
    ensures !Shown(shown, p.id) ==> text == Mask
  {
    if Shown(shown, p.id) then p.password else Mask
  }

  /** The search and category filter of the list. */
  predicate PasswordMatches(p: Password, search: string, category: string) {
    && (|| IncludesIgnoringCase(p.title, search)
        || IncludesIgnoringCase(p.username, search)
        || (p.url.Some? && IncludesIgnoringCase(p.url.value, search)))
    && (category == "" || p.category == Some(category))
  }

  /** `filteredPasswords`. */
  function FilterPasswords(ps: seq<Password>, search: string, category: string): (r: seq<Password>)
    ensures forall p :: p in r <==> p in ps && PasswordMatches(p, search, category)
    ensures Seqs.IsSubseq(r, ps)
  {
    Seqs.Filter(ps, p => PasswordMatches(p, search, category))
  }

  /** An empty search with no category keeps every password, in order. */
  lemma UnfilteredKeepsAll(ps: seq<Password>)
    ensures FilterPasswords(ps, "", "") == ps
  {
    forall p | p in ps ensures PasswordMatches(p, "", "") {
      IncludesEmpty(Lower(p.title));
    }
  }

  /** `categories`: the distinct non-empty categories of the passwords. */
  function Categories(ps: seq<Password>): (r: seq<string>)
    ensures Seqs.NoDuplicates(r)
    ensures forall c :: c in r <==> c != "" && exists i :: 0 <= i < |ps| && ps[i].category == Some(c)
  {
    Seqs.DistinctPresent(ps, (p: Password) => p.category)
  }

  datatype PasswordsAction = DeletePasswordAction(id: string)

  const DeleteMessage: string := "Are you sure you want to delete this password? This action cannot be undone."

  /** The backend's replies to the submit: the signed-in user, the insert
      and the update. */
  datatype PasswordReplies = PasswordReplies(
    user: Option<User>, now: string, inserted: Result<Option<Password>, PasswordStore.DbError>,
    updateError: Option<string>)

  class PasswordsPage {
    const store: PasswordStore.PasswordStore
    var isModalOpen: bool
    var selectedPassword: Option<Password>
    var confirmAction: Option<NotesPage.Pending<PasswordsAction>>
    var isConfirmDialogOpen: bool
    var showPasswords: map<string, bool>
    var showVerificationModal: bool
    var verificationCode: string
    var verificationError: string
    var passwordToShow: Option<string>

    function State(): Gate
      reads this
    {
      Gate(showPasswords, showVerificationModal, verificationCode, verificationError, passwordToShow)
    }

    constructor (store: PasswordStore.PasswordStore, openForm: bool)
      ensures State() == InitialGate
      ensures this.store == store && isModalOpen == openForm && selectedPassword == None
      ensures confirmAction == None && !isConfirmDialogOpen
    {
      this.store := store;
      isModalOpen := openForm;
      selectedPassword := None;
      confirmAction := None;
      isConfirmDialogOpen := false;
      showPasswords := map[];
      showVerificationModal := false;
      verificationCode := "";
      verificationError := "";
      passwordToShow := None;
    }

    method TogglePasswordVisibility(id: string)
      modifies this
      ensures State() == Toggle(old(State()), id)
    {
      if id in showPasswords && showPasswords[id] {
        showPasswords := showPasswords[id := false];
      } else {
        passwordToShow := Some(id);
        showVerificationModal := true;
        verificationCode := "";
        verificationError := "";
      }
    }

    method SetVerificationCode(code: string)
      modifies this
      ensures State() == TypeCode(old(State()), code)
    {
      verificationCode := code;
    }

    /** `handleVerifyCode` against the code the auth store holds. */
    method HandleVerifyCode(auth: AuthStore.AuthStore)
      modifies this
      ensures State() == Verify(old(State()), auth.oneTimeCode)
    {
      if auth.oneTimeCode.Some? && verificationCode == auth.oneTimeCode.value
        && passwordToShow.Some? && passwordToShow.value != "" {
        showPasswords := showPasswords[passwordToShow.value := true];
        showVerificationModal := false;
        verificationCode := "";
        verificationError := "";
        passwordToShow := None;
      } else {
        verificationError := InvalidCode;
      }
    }

    method CloseVerificationModal()
      modifies this
      ensures State() == Close(old(State()))
    {
      showVerificationModal := false;
      verificationCode := "";
      verificationError := "";
      passwordToShow := None;
    }

    /** `handleSubmit`: update the selected password, or add a new one. An
        update error is only recorded by the store; a failed add propagates,
        so the modal stays open with the selection. */
    method HandleSubmit(data: PasswordFields, replies: PasswordReplies, encrypt: Cipher)
      returns (outcome: Outcome<string>)
      modifies this, store
      ensures State() == old(State())
      ensures confirmAction == old(confirmAction) && isConfirmDialogOpen == old(isConfirmDialogOpen)
      ensures old(selectedPassword).Some? && replies.user.Some? && replies.updateError.None? ==>
        outcome == Pass && store.passwords == PasswordStore.Updated(old(store.passwords), old(selectedPassword).value.id, data)
      ensures old(selectedPassword).Some? && (replies.user.None? || replies.updateError.Some?) ==>
        outcome == Pass && store.passwords == old(store.passwords)
      ensures old(selectedPassword).None? && outcome.Pass? ==>
        (&& replies.inserted.Success? && replies.inserted.value.Some? && data.password.Some?
         && store.passwords == [replies.inserted.value.value.(password := data.password.value)] + old(store.passwords))
      ensures outcome.Pass? ==> !isModalOpen && selectedPassword == None
      ensures outcome.Fail? ==>
        (&& old(selectedPassword).None? && isModalOpen == old(isModalOpen) && selectedPassword == old(selectedPassword)
         && store.passwords == old(store.passwords) && store.error == Some(outcome.error))
    {
      if selectedPassword.Some? {
        var _ := store.UpdatePassword(selectedPassword.value.id, data, replies.user, replies.updateError, encrypt);
        outcome := Pass;
      } else {
        var sent;
        outcome, sent := store.AddPassword(data, replies.user, replies.now, replies.inserted, encrypt);
        if outcome.Fail? {
          return;
        }
      }
      isModalOpen := false;
      selectedPassword := None;
    }

    /** `handleDelete`: ask before deleting. */
    method HandleDelete(id: string)
      modifies this
      ensures State() == old(State())
      ensures confirmAction == Some(NotesPage.Pending(DeletePasswordAction(id), "Delete Password", DeleteMessage))
      ensures isConfirmDialogOpen && isModalOpen == old(isModalOpen) && selectedPassword == old(selectedPassword)
    {
      confirmAction := Some(NotesPage.Pending(DeletePasswordAction(id), "Delete Password", DeleteMessage));
      isConfirmDialogOpen := true;
    }

    /** The confirm button: `deletePassword` through the store, then close. */
    method Confirm(deleteError: Option<string>)
      modifies this, store
      ensures State() == old(State())
      ensures !isConfirmDialogOpen && confirmAction == old(confirmAction)
      ensures old(confirmAction).None? ==> store.passwords == old(store.passwords)
      ensures old(confirmAction).Some? ==>
        store.passwords == (if deleteError.None?
                            then Seqs.WithoutKey(old(store.passwords), old(confirmAction).value.action.id, PasswordId)
                            else old(store.passwords))
    {
      if confirmAction.Some? {
        store.DeletePassword(confirmAction.value.action.id, deleteError);
      }
      isConfirmDialogOpen := false;
    }
  }
}
