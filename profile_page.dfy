/** The Profile page: the password change check, the phone-update fallback,
    and the two-modal account deletion flow (password re-check, then the
    freshly generated one-time code) that ends in the auth store's deletion. */
module ProfilePage {
  import opened Wrappers
  import opened Types
  import opened Text
  import AuthStore

  /** The banner `message`: `{ type, text }`. */
  datatype Message = Message(kind: string, text: string)

  const Mismatch: string := "New passwords do not match!"
  const IncorrectPassword: string := "Incorrect password. Please try again."
  const NoCode: string := "No verification code generated"
  const WrongCode: string := "Invalid verification code"

  /** How a phone change ends. */
  datatype PhoneUpdate = PhoneSaved | SavedInMetadata | PhoneFailed(message: string)

  /** The phone branch of `handleProfileUpdate`: a refusal by the SMS
      provider falls back to storing the phone in the user metadata; any
      other refusal is the error. */
  function PhoneFallback(phoneError: Option<string>, metadataError: Option<string>): (r: PhoneUpdate)
    ensures phoneError.None? <==> r == PhoneSaved
    ensures r == SavedInMetadata <==>
      phoneError.Some? && Includes(phoneError.value, "SMS provider") && metadataError.None?
    ensures phoneError.Some? && !Includes(phoneError.value, "SMS provider") ==> r == PhoneFailed(phoneError.value)
    ensures phoneError.Some? && Includes(phoneError.value, "SMS provider") && metadataError.Some? ==>
      r == PhoneFailed(metadataError.value)
  {
    if phoneError.None? then PhoneSaved
    else if Includes(phoneError.value, "SMS provider") then
      if metadataError.None? then SavedInMetadata else PhoneFailed(metadataError.value)
    else PhoneFailed(phoneError.value)
  }

  /** The checks `handleVerifyAndDelete` makes before it calls the store. */
  function FinalCheck(oneTimeCode: Option<string>, typed: string): (err: Option<string>)
    ensures err.None? <==> Truthy(oneTimeCode) && typed == oneTimeCode.value
    ensures !Truthy(oneTimeCode) ==> err == Some(NoCode)
    ensures Truthy(oneTimeCode) && typed != oneTimeCode.value ==> err == Some(WrongCode)
  {
    if !Truthy(oneTimeCode) then Some(NoCode)
    else if typed != oneTimeCode.value then Some(WrongCode)
    else None
  }

  /** For a signed-in user the store's guards accept whatever the page's
      checks let through, so deletion then fails only in its final stage. */
  lemma PageCheckImpliesStoreGuard(user: User, oneTimeCode: Option<string>, typed: string)
    ensures FinalCheck(oneTimeCode, typed).None? <==> AuthStore.DeletionGuard(Some(user), oneTimeCode, typed).None?
  {
  }

  class ProfilePage {
    const auth: AuthStore.AuthStore
    var currentPassword: string
    var newPassword: string
    var confirmPassword: string
    var isChangingPassword: bool
    var message: Message
    var showConfirmModal: bool
    var showDeleteModal: bool
    var password: string
    var verificationCode: string
    var error: Option<string>
    var navigatedTo: Option<string>

    constructor (auth: AuthStore.AuthStore)
      ensures this.auth == auth
      ensures !showConfirmModal && !showDeleteModal && password == "" && verificationCode == ""
      ensures error == None && message == Message("", "") && navigatedTo == None
    {
      this.auth := auth;
      currentPassword, newPassword, confirmPassword := "", "", "";
      isChangingPassword := false;
      message := Message("", "");
      showConfirmModal, showDeleteModal := false, false;
      password, verificationCode := "", "";
      error := None;
      navigatedTo := None;
    }

    /** `handlePasswordChange`: a mismatch is refused locally and asks the
        backend nothing; otherwise `updateError` is the backend's answer. The
        result is the new password sent, if any. */
    method HandlePasswordChange(updateError: Option<string>) returns (sent: Option<string>)
      modifies this
      ensures old(newPassword) != old(confirmPassword) ==>
        (&& sent == None && message == Message("error", Mismatch)
         && newPassword == old(newPassword) && confirmPassword == old(confirmPassword)
         && currentPassword == old(currentPassword) && isChangingPassword == old(isChangingPassword))
      ensures old(newPassword) == old(confirmPassword) ==> sent == Some(old(newPassword))
      ensures sent.Some? && updateError.None? ==>
        (&& message == Message("success", "Password updated successfully!") && !isChangingPassword
         && currentPassword == "" && newPassword == "" && confirmPassword == "")
      ensures sent.Some? && updateError.Some? ==>
        (&& message == Message("error", updateError.value)
         && newPassword == old(newPassword) && confirmPassword == old(confirmPassword)
         && currentPassword == old(currentPassword) && isChangingPassword == old(isChangingPassword))
      ensures showConfirmModal == old(showConfirmModal) && showDeleteModal == old(showDeleteModal)
      ensures password == old(password) && verificationCode == old(verificationCode)
      ensures error == old(error) && navigatedTo == old(navigatedTo)
    {
      if newPassword != confirmPassword {
        message := Message("error", Mismatch);
        return None;
      }
      sent := Some(newPassword);
      if updateError.Some? {
        message := Message("error", updateError.value);
        return;
      }
      message := Message("success", "Password updated successfully!");
      isChangingPassword := false;
      currentPassword, newPassword, confirmPassword := "", "", "";
    }

    /** `handleDeleteAccount`: open the password re-check. */
    method HandleDeleteAccount()
      modifies this
      ensures error == None && showConfirmModal
      ensures showDeleteModal == old(showDeleteModal) && password == old(password)
      ensures verificationCode == old(verificationCode) && navigatedTo == old(navigatedTo)
    {
      error := None;
      showConfirmModal := true;
    }

    method SetPassword(typed: string)
      modifies this
      ensures password == typed
      ensures showConfirmModal == old(showConfirmModal) && showDeleteModal == old(showDeleteModal)
      ensures verificationCode == old(verificationCode) && error == old(error)
    {
      password := typed;
    }

    method SetVerificationCode(typed: string)
      modifies this
      ensures verificationCode == typed
      ensures showConfirmModal == old(showConfirmModal) && showDeleteModal == old(showDeleteModal)
      ensures password == old(password) && error == old(error)
    {
      verificationCode := typed;
    }

    /** `handlePasswordVerification`: `signInError` is the answer to the
        re-authentication with the typed password. Only a correct password
        moves on, and only then is a new code generated. */
    method HandlePasswordVerification(signInError: Option<string>, draw: AuthStore.Draw)
      modifies this, auth
      ensures signInError.Some? ==>
        (&& error == Some(IncorrectPassword) && showConfirmModal == old(showConfirmModal)
         && showDeleteModal == old(showDeleteModal) && password == old(password)
         && auth.oneTimeCode == old(auth.oneTimeCode) && auth.oneTimeCodeShown == old(auth.oneTimeCodeShown))
      ensures signInError.None? ==>
        (&& !showConfirmModal && password == "" && showDeleteModal && error == None
         && auth.oneTimeCode == Some(AuthStore.CodeFromDraw(draw)) && !auth.oneTimeCodeShown
         && auth.error == None && !auth.loading)
      ensures auth.user == old(auth.user) && auth.session == old(auth.session)
      ensures verificationCode == old(verificationCode) && navigatedTo == old(navigatedTo)
    {
      error := None;
      if signInError.Some? {
        error := Some(IncorrectPassword);
        return;
      }
      showConfirmModal := false;
      password := "";
      auth.GenerateOneTimeCode(draw);
      showDeleteModal := true;
    }

    /** `handleVerifyAndDelete`: the page's own checks, then the store's
        deletion with the backend's `replies`. On success the modal closes and
        the page leaves for /login; a failure is shown and the modal stays. */
    method HandleVerifyAndDelete(replies: AuthStore.DeletionReplies)
      returns (calls: seq<AuthStore.RemoteCall>)
      modifies this, auth
      ensures FinalCheck(old(auth.oneTimeCode), old(verificationCode)).Some? ==>
        (&& error == FinalCheck(old(auth.oneTimeCode), old(verificationCode)) && calls == []
         && auth.user == old(auth.user) && auth.session == old(auth.session)
         && auth.oneTimeCode == old(auth.oneTimeCode) && auth.loading == old(auth.loading)
         && showDeleteModal == old(showDeleteModal) && verificationCode == old(verificationCode)
         && navigatedTo == old(navigatedTo))
      ensures FinalCheck(old(auth.oneTimeCode), old(verificationCode)).None? && old(auth.user).Some? ==>
        calls == AuthStore.DeletionCalls(old(auth.user).value.id, replies)
      ensures FinalCheck(old(auth.oneTimeCode), old(verificationCode)).None? && old(auth.user).None? ==>
        calls == [] && error == Some("Not authenticated")
      ensures (&& FinalCheck(old(auth.oneTimeCode), old(verificationCode)).None? && old(auth.user).Some?
               && AuthStore.DeletionFailure(replies).None?) ==>
        (&& auth.user == None && auth.session == None && auth.oneTimeCode == None
         && !showDeleteModal && verificationCode == "" && navigatedTo == Some("/login") && error == None)
      ensures (&& FinalCheck(old(auth.oneTimeCode), old(verificationCode)).None?
               && !(old(auth.user).Some? && AuthStore.DeletionFailure(replies).None?)) ==>
        (&& error.Some? && error == auth.error
         && auth.user == old(auth.user) && auth.session == old(auth.session)
         && auth.oneTimeCode == old(auth.oneTimeCode)
         && showDeleteModal == old(showDeleteModal) && navigatedTo == old(navigatedTo))
      ensures showConfirmModal == old(showConfirmModal) && password == old(password)
    {
      error := None;
      var check := FinalCheck(auth.oneTimeCode, verificationCode);
      if check.Some? {
        error := check;
        return [];
      }
      var outcome;
      outcome, calls := auth.DeleteAccount(verificationCode, replies);
      if outcome.Fail? {
        error := Some(outcome.error);
        return;
      }
      showDeleteModal := false;
      verificationCode := "";
      navigatedTo := Some("/login");
    }

    /** Cancelling the password re-check. */
    method CancelConfirm()
      modifies this
      ensures !showConfirmModal && password == "" && error == None
      ensures showDeleteModal == old(showDeleteModal) && verificationCode == old(verificationCode)
    {
      showConfirmModal := false;
      password := "";
      error := None;
    }

    /** Cancelling the final verification. */
    method CancelDelete()
      modifies this
      ensures !showDeleteModal && verificationCode == "" && error == None
      ensures showConfirmModal == old(showConfirmModal) && password == old(password)
    {
      showDeleteModal := false;
      verificationCode := "";
      error := None;
    }
  }
}
