/** The forgot-password screen: requesting a reset code without revealing whether the account exists. */
module ForgotPasswordScreen {
  import opened Wrappers
  import opened Navigation
  import opened Effects

  const MissingEmailAlert := ShowAlert("Validation", Plain("Please enter your email address"))
  const GenericAlert := ShowAlert("If this account exists", Plain("If this account exists, an OTP has been sent to your email."))

  class ForgotForm {
    var loading: bool

    constructor ()
      ensures !loading
    {
      loading := false;
    }

    /** "Send", up to the request: an empty email is refused. */
    method BeginRequest(email: string) returns (effects: seq<Effect>, request: Option<Request>)
      modifies this`loading
      ensures request.None? <==> email == ""
      ensures request.None? ==> effects == [MissingEmailAlert] && loading == old(loading)
      ensures request.Some? ==> effects == [] && loading && request.value == ResetRequest(email)
    {
      if email == "" {
        effects := [MissingEmailAlert];
        request := None;
        return;
      }
      loading := true;
      effects := [];
      request := Some(ResetRequest(email));
    }

    /**
     * The outcome, whatever it is (a response of any status, or a network
     * failure): the same generic notice and the move to the reset screen
     * with the entered email.
     */
    method CompleteRequest(email: string, outcome: Response) returns (effects: seq<Effect>)
      modifies this`loading
      ensures !loading
      ensures effects == [GenericAlert, Navigate(ResetPassword, map["email" := email])]
    {
      match outcome {
        case NetworkError(_) =>
          effects := [GenericAlert, Navigate(ResetPassword, map["email" := email])];
        case Response(_, _, _, _) =>
          effects := [GenericAlert, Navigate(ResetPassword, map["email" := email])];
      }
      loading := false;
    }
  }
}
