/** The login OTP screen: verifying the code sent for a sign-in, and asking for a new one. */
module LoginOtpScreen {
  import opened Wrappers
  import opened JsonValues
  import opened Text
  import opened AuthSlice
  import opened Navigation
  import opened Effects
  import opened Store
  import opened AuthApi
  import opened Credentials

  const LengthAlert := ShowAlert("Error", Plain("Please enter a valid 6-digit OTP"))
  const VerifiedAlert := ShowAlert("Success", Plain("Login verified!"))
  const VerifyNetworkAlert := ShowAlert("Network Error", Plain("Could not verify login OTP."))
  const ResentAlert := ShowAlert("OTP Sent", Plain("A new OTP has been sent."))
  const ResendNetworkAlert := ShowAlert("Network Error", Plain("Could not resend OTP"))

  /** The alert for a refused resend: the body, or a fixed apology. */
  function ResendRefusal(data: Json): (r: Effect)
    ensures r.ShowAlert? && r.title == "Could not resend"
    ensures Truthy(data) ==> r.message == BodyMessage(data)
    ensures !Truthy(data) ==> r.message == Plain("Could not resend OTP.")
  {
    ShowAlert("Could not resend", if Truthy(data) then BodyMessage(data) else Plain("Could not resend OTP."))
  }

  class LoginOtpForm {
    const email: string          // the route's email, "" when absent
    const phone: string          // the route's phone, "" when absent
    var otp: string
    var isLoading: bool
    var otpError: Option<string>

    constructor (email: string, phone: string)
      ensures this.email == email && this.phone == phone && otp == "" && !isLoading && otpError.None?
    {
      this.email := email;
      this.phone := phone;
      otp := "";
      isLoading := false;
      otpError := None;
    }

    /** Typing in the six-character code field: the code is capped at six characters and the inline error is cleared. */
    method EditOtp(input: string)
      modifies this`otp, this`otpError
      ensures otp == Take(input, 6) && |otp| <= 6
      ensures otpError.None?
    {
      otp := Take(input, 6);
      otpError := None;
    }

    /** "Verify", up to the request: a code of another length is refused with an alert. */
    method BeginVerify() returns (effects: seq<Effect>, request: Option<Request>)
      modifies this`isLoading
      ensures request.Some? <==> |otp| == 6
      ensures |otp| != 6 ==> effects == [LengthAlert] && isLoading == old(isLoading)
      ensures |otp| == 6 ==> effects == [] && isLoading && request.value == VerifyLoginOtpRequest(email, phone, otp)
    {
      if |otp| != 6 {
        effects := [LengthAlert];
        request := None;
        return;
      }
      isLoading := true;
      effects := [];
      request := Some(VerifyLoginOtpRequest(email, phone, otp));
    }

    /**
     * The verification response. Success stores the session with the email
     * and the phone as mobile number (each null when empty) and resets to
     * Home, unless logging the access token throws; a rejection reports the
     * OTP errors inline or alerts; a network failure alerts.
     */
    method CompleteVerify(outcome: Response, store: AppStore) returns (effects: seq<Effect>)
      modifies this`otpError, this`isLoading, store`auth
      ensures !isLoading
      ensures outcome.NetworkError? ==>
        effects == [VerifyNetworkAlert] && store.auth == old(store.auth) && otpError == old(otpError)
      ensures outcome.Response? && outcome.ok ==>
        var data := Data(outcome.body);
        && store.auth == SetAuth(old(store.auth), SignInPatch(data, email, StrOrNull(phone)))
        && otpError == old(otpError)
        && effects == (if TokenLoggable(AccessOf(data)) then [VerifiedAlert, ResetTo(Home)] else [VerifyNetworkAlert])
      ensures outcome.Response? && !outcome.ok ==>
        var rejection := VerifyRejection(Data(outcome.body), outcome.status, outcome.statusText);
        && store.auth == old(store.auth)
        && (rejection.InlineError? ==> otpError == Some(rejection.text) && effects == [])
        && (rejection.RejectionAlert? ==>
              otpError == old(otpError) && effects == [ShowAlert("Verification failed", rejection.message)])
    {
      effects := [];
      match outcome {
        case NetworkError(_) =>
          effects := [VerifyNetworkAlert];
        case Response(ok, status, statusText, body) =>
          var data := Data(body);
          if ok {
            store.DispatchSetAuth(SignInPatch(data, email, StrOrNull(phone)));
            if TokenLoggable(AccessOf(data)) {
              effects := [VerifiedAlert, ResetTo(Home)];
            } else {
              effects := [VerifyNetworkAlert];
            }
          } else {
            var rejection := VerifyRejection(data, status, statusText);
            if rejection.InlineError? {
              otpError := Some(rejection.text);
            } else {
              effects := [ShowAlert("Verification failed", rejection.message)];
            }
          }
      }
      isLoading := false;
    }

    /** "Resend": the shared resend endpoint, always for the login purpose. */
    method BeginResend() returns (request: Request)
      modifies this`otpError, this`isLoading
      ensures otpError.None? && isLoading
      ensures request.ResendOtpRequest? && Get(request.payload, "purpose") == JStr("login")
      ensures request == ResendOtpRequest(ResendPayload(email, "login"))
    {
      otpError := None;
      isLoading := true;
      request := ResendOtpRequest(ResendPayload(email, "login"));
    }

    method CompleteResend(outcome: Response) returns (effects: seq<Effect>)
      modifies this`isLoading
      ensures !isLoading
      ensures outcome.NetworkError? ==> effects == [ResendNetworkAlert]
      ensures outcome.Response? && outcome.ok ==> effects == [ResentAlert]
      ensures outcome.Response? && !outcome.ok ==> effects == [ResendRefusal(Data(outcome.body))]
    {
      match outcome {
        case NetworkError(_) =>
          effects := [ResendNetworkAlert];
        case Response(ok, _, _, body) =>
          effects := if ok then [ResentAlert] else [ResendRefusal(Data(body))];
      }
      isLoading := false;
    }
  }
}
