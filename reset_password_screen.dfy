/** The reset-password screen: the password rule, the guard chain, and the confirmation's outcome. */
module ResetPasswordScreen {
  import opened Wrappers
  import opened JsonValues
  import opened Text
  import opened AuthSlice
  import opened Navigation
  import opened Effects
  import opened Store

  /** `validatePassword`: at least eight characters, with an ASCII digit and an ASCII letter. */
  predicate ValidatePassword(p: string)
    ensures ValidatePassword(p) ==> |p| >= 8 && Lower(p) != Upper(p)
  {
    |p| >= 8
    && (exists i :: 0 <= i < |p| && IsDigit(p[i]))
    && (exists i :: 0 <= i < |p| && IsLetter(p[i]))
  }

  lemma PasswordExamples()
    ensures ValidatePassword("abcd1234") && ValidatePassword("1234567Z")
    ensures !ValidatePassword("abcdefgh") && !ValidatePassword("12345678") && !ValidatePassword("abc123")
  {
    assert IsDigit("abcd1234"[4]) && IsLetter("abcd1234"[0]);
    assert IsDigit("1234567Z"[0]) && IsLetter("1234567Z"[7]);
    var letters := "abcdefgh";
    assert forall i :: 0 <= i < |letters| ==> !IsDigit(letters[i]);
    var digits := "12345678";
    assert forall i :: 0 <= i < |digits| ==> !IsLetter(digits[i]);
  }

  const MissingEmailAlert := ShowAlert("Missing email", Plain("Please request a password reset again."))
  const MissingOtpAlert := ShowAlert("Validation", Plain("Please enter the OTP sent to your email"))
  const MismatchAlert := ShowAlert("Validation", Plain("Passwords do not match"))
  const WeakAlert := ShowAlert("Validation", Plain("Password must be at least 8 characters and contain letters and numbers"))
  const ResetDoneAlert := ShowAlert("Password reset", Plain("Password changed successfully. For security, you have been logged out from other devices. Please log in with your new password."))
  const ResetErrorAlert := ShowAlert("Reset failed", Plain("An error occurred. Please request a new reset."))

  /** The text of a refused reset: the body, or "Invalid or expired OTP" without one. */
  function RefusalMessage(data: Json): (m: Message)
    ensures Truthy(data) && data.JStr? ==> m == Plain(data.s)
    ensures Truthy(data) && !data.JStr? ==> m == JsonOf(data)
    ensures !Truthy(data) ==> m == Plain("Invalid or expired OTP")
  {
    if Truthy(data) then BodyMessage(data) else Plain("Invalid or expired OTP")
  }

  class ResetForm {
    var email: string            // from the route's email, "" when absent
    var otp: string
    var newPassword: string
    var confirmPassword: string
    var loading: bool

    constructor (routeEmail: string)
      ensures email == routeEmail && otp == "" && newPassword == "" && confirmPassword == "" && !loading
    {
      email := routeEmail;
      otp := "";
      newPassword := "";
      confirmPassword := "";
      loading := false;
    }

    method Edit(otp: string, newPassword: string, confirmPassword: string)
      modifies this`otp, this`newPassword, this`confirmPassword
      ensures this.otp == otp && this.newPassword == newPassword && this.confirmPassword == confirmPassword
    {
      this.otp := otp;
      this.newPassword := newPassword;
      this.confirmPassword := confirmPassword;
    }

    /**
     * "Set password", up to the request. The checks run in order (email,
     * code, confirmation, strength) and the first that fails explains itself
     * and stops; only when all pass is the confirmation sent.
     */
    method BeginSubmit() returns (effects: seq<Effect>, request: Option<Request>)
      modifies this`loading
      ensures request.Some? <==>
        email != "" && otp != "" && newPassword == confirmPassword && ValidatePassword(newPassword)
      ensures request.Some? ==>
        request.value == ResetConfirmRequest(email, otp, newPassword) && effects == [] && loading
      ensures request.None? ==> loading == old(loading)
      ensures email == "" ==> effects == [MissingEmailAlert, Navigate(ForgotPassword, map[])]
      ensures email != "" && otp == "" ==> effects == [MissingOtpAlert]
      ensures email != "" && otp != "" && newPassword != confirmPassword ==> effects == [MismatchAlert]
      ensures email != "" && otp != "" && newPassword == confirmPassword && !ValidatePassword(newPassword) ==>
        effects == [WeakAlert]
    {
      request := None;
      if email == "" {
        effects := [MissingEmailAlert, Navigate(ForgotPassword, map[])];
        return;
      }
      if otp == "" {
        effects := [MissingOtpAlert];
        return;
      }
      if newPassword != confirmPassword {
        effects := [MismatchAlert];
        return;
      }
      if !ValidatePassword(newPassword) {
        effects := [WeakAlert];
        return;
      }
      loading := true;
      effects := [];
      request := Some(ResetConfirmRequest(email, otp, newPassword));
    }

    /** The confirmation's outcome: success signs out and starts again at Login. */
    method CompleteSubmit(outcome: Response, store: AppStore) returns (effects: seq<Effect>)
      modifies this`loading, store`auth
      ensures !loading
      ensures outcome.NetworkError? ==> effects == [ResetErrorAlert] && store.auth == old(store.auth)
      ensures outcome.Response? && outcome.ok ==>
        store.auth == AuthSlice.Initial && effects == [ResetDoneAlert, ResetTo(Login)]
      ensures outcome.Response? && !outcome.ok ==>
        store.auth == old(store.auth)
        && effects == [ShowAlert("Reset failed", RefusalMessage(Data(outcome.body)))]
    {
      match outcome {
        case NetworkError(_) =>
          effects := [ResetErrorAlert];
        case Response(ok, _, _, body) =>
          if ok {
            store.DispatchClearAuth();
            effects := [ResetDoneAlert, ResetTo(Login)];
          } else {
            effects := [ShowAlert("Reset failed", RefusalMessage(Data(body)))];
          }
      }
      loading := false;
    }
  }
}
