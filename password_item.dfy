/** One password card: its own reveal flag behind the one-time code. Unlike
    the Passwords page, the card has no hide transition: the eye button always
    opens the prompt, and a revealed password stays revealed. */
module PasswordItem {
  import opened Wrappers
  import opened Types
  import AuthStore
  import PasswordsPage

  /** `showPassword`, `showVerificationModal`, `verificationCode`, `error`. */
  datatype ItemState = ItemState(showPassword: bool, promptOpen: bool, code: string, error: string)

  const InitialItem: ItemState := ItemState(false, false, "", "")

  /** `handleShowPassword`: open the prompt, whatever is shown. */
  function ShowPrompt(s: ItemState): (r: ItemState)
    ensures r.promptOpen && r.showPassword == s.showPassword && r.code == s.code && r.error == s.error
  {
    s.(promptOpen := true)
  }

  function TypeItemCode(s: ItemState, code: string): (r: ItemState)
    ensures r.code == code && r.showPassword == s.showPassword && r.promptOpen == s.promptOpen
  {
    s.(code := code)
  }

  /** `verifyAndShowPassword`: the typed code must equal the session code;
      no session code matches nothing. */
  function VerifyItem(s: ItemState, oneTimeCode: Option<string>): (r: ItemState)
    ensures oneTimeCode.Some? && s.code == oneTimeCode.value ==>
      r == ItemState(true, false, "", "")
    ensures !(oneTimeCode.Some? && s.code == oneTimeCode.value) ==>
      r == s.(error := PasswordsPage.InvalidCode)
    ensures r.showPassword <==> s.showPassword || (oneTimeCode.Some? && s.code == oneTimeCode.value)
  {
    if oneTimeCode.Some? && s.code == oneTimeCode.value then
      s.(showPassword := true, promptOpen := false, code := "", error := "")
    else
      s.(error := PasswordsPage.InvalidCode)
  }

  /** Closing the prompt clears it and leaves the flag alone. */
  function CloseItemPrompt(s: ItemState): (r: ItemState)
    ensures !r.promptOpen && r.code == "" && r.error == "" && r.showPassword == s.showPassword
  {
    s.(promptOpen := false, code := "", error := "")
  }

  datatype ItemEvent = Eye | TypedCode(code: string) | VerifyClicked | Closed

  function ItemStep(s: ItemState, e: ItemEvent, oneTimeCode: Option<string>): ItemState {
    match e
    case Eye => ShowPrompt(s)
    case TypedCode(c) => TypeItemCode(s, c)
    case VerifyClicked => VerifyItem(s, oneTimeCode)
    case Closed => CloseItemPrompt(s)
  }

  function RunItem(s: ItemState, events: seq<ItemEvent>, oneTimeCode: Option<string>): ItemState
    decreases |events|
  {
    if events == [] then s else RunItem(ItemStep(s, events[0], oneTimeCode), events[1..], oneTimeCode)
  }

  /** Once revealed, a card stays revealed whatever happens next. */
  lemma {:induction false} RevealIsPermanent(s: ItemState, events: seq<ItemEvent>, oneTimeCode: Option<string>)
    requires s.showPassword
    ensures RunItem(s, events, oneTimeCode).showPassword
    decreases |events|
  {
    if events != [] {
      RevealIsPermanent(ItemStep(s, events[0], oneTimeCode), events[1..], oneTimeCode);
    }
  }

  /** A hidden card is revealed only by a run in which the session code was
      typed (or already stood in the prompt). */
  lemma {:induction false} ItemRevealNeedsCode(s: ItemState, events: seq<ItemEvent>, oneTimeCode: Option<string>)
    requires !s.showPassword && RunItem(s, events, oneTimeCode).showPassword
    ensures oneTimeCode.Some?
    ensures oneTimeCode.value == s.code || oneTimeCode.value == "" || TypedCode(oneTimeCode.value) in events
    decreases |events|
  {
    var next := ItemStep(s, events[0], oneTimeCode);
    if !next.showPassword {
      ItemRevealNeedsCode(next, events[1..], oneTimeCode);
      assert events == [events[0]] + events[1..];
    }
  }

  /** The card's password text: plaintext only when revealed. */
  function DisplayedText(s: ItemState, p: Password): (text: string)
    ensures s.showPassword ==> text == p.password
    ensures !s.showPassword ==> text == PasswordsPage.Mask
  {
    if s.showPassword then p.password else PasswordsPage.Mask
  }

  class PasswordItem {
    const password: Password
    var showPassword: bool
    var showVerificationModal: bool
    var verificationCode: string
    var error: string

    function State(): ItemState
      reads this
    {
      ItemState(showPassword, showVerificationModal, verificationCode, error)
    }

    constructor (password: Password)
      ensures this.password == password && State() == InitialItem
    {
      this.password := password;
      showPassword := false;
      showVerificationModal := false;
      verificationCode := "";
      error := "";
    }

    method HandleShowPassword()
      modifies this
      ensures State() == ShowPrompt(old(State()))
    {
      showVerificationModal := true;
    }

    method SetVerificationCode(code: string)
      modifies this
      ensures State() == TypeItemCode(old(State()), code)
    {
      verificationCode := code;
    }

    method VerifyAndShowPassword(auth: AuthStore.AuthStore)
      modifies this
      ensures State() == VerifyItem(old(State()), auth.oneTimeCode)
    {
      if auth.oneTimeCode.Some? && verificationCode == auth.oneTimeCode.value {
        showPassword := true;
        showVerificationModal := false;
        verificationCode := "";
        error := "";
      } else {
        error := PasswordsPage.InvalidCode;
      }
    }

    method CloseModal()
      modifies this
      ensures State() == CloseItemPrompt(old(State()))
    {
      showVerificationModal := false;
      verificationCode := "";
      error := "";
    }
  }
}
