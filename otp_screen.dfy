/** The registration OTP screen: verifying the emailed code, and asking for a new one. */
module OtpScreen {
  import opened Wrappers
  import opened JsonValues
  import opened Text
  import opened AuthSlice
  import opened Navigation
  import opened Effects
  import opened Store
  import opened Credentials

  const LengthError := "Please enter a valid 6-digit OTP"
  const VerifiedAlert := ShowAlert("Success", Plain("OTP verified successfully!"))
  const VerifyNetworkAlert := ShowAlert("Network Error", Plain("Could not verify OTP. Check your connection."))
  const ResentAlert := ShowAlert("OTP Sent", Plain("A new OTP has been sent to your email."))
  const ResendNetworkAlert := ShowAlert("Network Error", Plain("Could not resend OTP"))

  /** The alert for a refused resend: the body, or "Request failed (<status>)". */
  function ResendRefusal(data: Json, status: int): (r: Effect)
    ensures r.ShowAlert? && r.title == "Could not resend"
    ensures Truthy(data) ==> r.message == BodyMessage(data)
    ensures !Truthy(data) ==> r.message == Plain("Request failed " + StatusSuffix(status))
  {
    ShowAlert("Could not resend", if Truthy(data) then BodyMessage(data) else Plain("Request failed " + StatusSuffix(status)))
  }

  class OtpForm {
    const email: string          // the route's email, "" when absent
    var otp: string
    var isLoading: bool
    var otpError: Option<string>

    constructor (email: string)
      ensures this.email == email && otp == "" && !isLoading && otpError.None?
    {
      this.email := email;
      otp := "";
      isLoading := false;
      otpError := None;
    }

    /** Typing in the six-character code field: the code is capped at six characters and the inline error is cleared. */
    method EditOtp(input: string)
      modifies this`otp, this`otpError
      ensures otp == Take(input, 6) && |otp| <= 6
      ensures otpError.None?
    {
      otp := Take(input, 6);
      otpError := None;
    }

    /** "Verify", up to the request: only a six-character code is sent. */
    method BeginVerify() returns (request: Option<Request>)
      modifies this`otpError, this`isLoading
      ensures request.Some? <==> |otp| == 6
      ensures |otp| != 6 ==> otpError == Some(LengthError) && isLoading == old(isLoading)
      ensures |otp| == 6 ==> otpError.None? && isLoading && request.value == VerifyOtpRequest(email, otp)
    {
      otpError := None;
      if |otp| != 6 {
        otpError := Some(LengthError);
        request := None;
        return;
      }
      isLoading := true;
      request := Some(VerifyOtpRequest(email, otp));
    }

    /**
     * The verification response. Success stores the session (email, or null
     * when empty; no mobile number) and resets to Home, unless logging the
     * access token throws; a rejection reports the OTP errors inline or
     * alerts; a network failure alerts.
     */
    method CompleteVerify(outcome: Response, store: AppStore) returns (effects: seq<Effect>)
      modifies this`otpError, this`isLoading, store`auth
      ensures !isLoading
      ensures outcome.NetworkError? ==>
        effects == [VerifyNetworkAlert] && store.auth == old(store.auth) && otpError == old(otpError)
      ensures outcome.Response? && outcome.ok ==>
        var data := Data(outcome.body);
        && store.auth == SetAuth(old(store.auth), SignInPatch(data, email, JNull))
        && otpError == old(otpError)
        && effects == (if TokenLoggable(AccessOf(data)) then [VerifiedAlert, ResetTo(Home)] else [VerifyNetworkAlert])
      ensures outcome.Response? && !outcome.ok ==>
        var rejection := VerifyRejection(Data(outcome.body), outcome.status, outcome.statusText);
        && store.auth == old(store.auth)
        && (rejection.InlineError? ==> otpError == Some(rejection.text) && effects == [])
        && (rejection.RejectionAlert? ==>
              otpError == old(otpError) && effects == [ShowAlert("Verification failed", rejection.message)])
    {
      effects := [];
      match outcome {
        case NetworkError(_) =>
          effects := [VerifyNetworkAlert];
        case Response(ok, status, statusText, body) =>
          var data := Data(body);
          if ok {
            store.DispatchSetAuth(SignInPatch(data, email, JNull));
            if TokenLoggable(AccessOf(data)) {
              effects := [VerifiedAlert, ResetTo(Home)];
            } else {
              effects := [VerifyNetworkAlert];
            }
          } else {
            var rejection := VerifyRejection(data, status, statusText);
            if rejection.InlineError? {
              otpError := Some(rejection.text);
            } else {
              effects := [ShowAlert("Verification failed", rejection.message)];
            }
          }
      }
      isLoading := false;
    }

    /** "Resend": the registration endpoint is asked again for this email. */
    method BeginResend() returns (request: Request)
      modifies this`otpError, this`isLoading
      ensures otpError.None? && isLoading && request == RegisterResendRequest(email)
    {
      otpError := None;
      isLoading := true;
      request := RegisterResendRequest(email);
    }

    method CompleteResend(outcome: Response) returns (effects: seq<Effect>)
      modifies this`isLoading
      ensures !isLoading
      ensures outcome.NetworkError? ==> effects == [ResendNetworkAlert]
      ensures outcome.Response? && outcome.ok ==> effects == [ResentAlert]
      ensures outcome.Response? && !outcome.ok ==> effects == [ResendRefusal(Data(outcome.body), outcome.status)]
    {
      match outcome {
        case NetworkError(_) =>
          effects := [ResendNetworkAlert];
        case Response(ok, status, _, body) =>
          effects := if ok then [ResentAlert] else [ResendRefusal(Data(body), status)];
      }
      isLoading := false;
    }
  }
}
