/** The login screen: requesting a sign-in code by email or phone. */
module LoginScreen {
  import opened Wrappers
  import opened JsonValues
  import opened Navigation
  import opened Effects

  const MissingContactAlert := ShowAlert("Validation", Plain("Please provide email or phone."))
  const CodeSentAlert := ShowAlert("OTP Sent", Plain("OTP for login has been sent."))
  const UnreachableAlert := ShowAlert("Network Error", Plain("Could not request login OTP."))

  /**
   * The error text of a refused request: the JSON body, else "Request failed
   * (<status> <statusText>)". The code also tries `response.text()` when
   * `json()` fails, but `json()` has already consumed the body, so that read
   * always rejects and its text is never available.
   */
  function ErrorMessage(body: Body, status: int, statusText: string): (m: Message)
    ensures Truthy(Data(body)) ==> m == BodyMessage(Data(body))
    ensures !Truthy(Data(body)) ==> m == Plain("Request failed " + StatusLineSuffix(status, statusText))
  {
    var data := Data(body);
    if Truthy(data) then BodyMessage(data)
    else Plain("Request failed " + StatusLineSuffix(status, statusText))
  }

  /** A body that is not JSON (an HTML error page, say) always yields the status line. */
  lemma UnparsedBodyShowsStatus(status: int, statusText: string)
    ensures ErrorMessage(Unparsed, status, statusText) == Plain("Request failed " + StatusLineSuffix(status, statusText))
  {
  }

  /** A 502 gateway page, which is not JSON, reads "Request failed (502 Bad Gateway)". */
  lemma ErrorMessageExamples()
    ensures ErrorMessage(Unparsed, 502, "Bad Gateway") == Plain("Request failed (502 Bad Gateway)")
    ensures ErrorMessage(Parsed(JStr("Invalid credentials")), 401, "Unauthorized") == Plain("Invalid credentials")
  {
    GatewayStatusLine();
  }

  lemma GatewayStatusLine()
    ensures StatusLineSuffix(502, "Bad Gateway") == "(502 Bad Gateway)"
  {
    GatewayStatusText();
  }

  lemma GatewayStatusText()
    ensures IntText(502) == "502"
  {
    assert NatText(502) == NatText(50) + ['2'];
    assert NatText(50) == NatText(5) + ['0'];
  }

  class LoginForm {
    var isLoading: bool

    constructor ()
      ensures !isLoading
    {
      isLoading := false;
    }

    /** "Request OTP", up to the request: it needs an email or a phone; the password is not checked. */
    method BeginRequest(email: string, phone: string, password: string) returns (effects: seq<Effect>, request: Option<Request>)
      modifies this`isLoading
      ensures request.None? <==> email == "" && phone == ""
      ensures request.None? ==> effects == [MissingContactAlert] && isLoading == old(isLoading)
      ensures request.Some? ==> effects == [] && isLoading && request.value == LoginOtpRequest(email, phone, password)
    {
      if email == "" && phone == "" {
        effects := [MissingContactAlert];
        request := None;
        return;
      }
      isLoading := true;
      effects := [];
      request := Some(LoginOtpRequest(email, phone, password));
    }

    /** The response: success moves on to the code screen with both contacts. */
    method CompleteRequest(email: string, phone: string, outcome: Response) returns (effects: seq<Effect>)
      modifies this`isLoading
      ensures !isLoading
      ensures outcome.NetworkError? ==> effects == [UnreachableAlert]
      ensures outcome.Response? && outcome.ok ==>
        effects == [CodeSentAlert, Navigate(LoginOtp, map["email" := email, "phone" := phone])]
      ensures outcome.Response? && !outcome.ok ==>
        effects == [ShowAlert("Error", ErrorMessage(outcome.body, outcome.status, outcome.statusText))]
    {
      match outcome {
        case NetworkError(_) =>
          effects := [UnreachableAlert];
        case Response(ok, status, statusText, body) =>
          if ok {
            effects := [CodeSentAlert, Navigate(LoginOtp, map["email" := email, "phone" := phone])];
          } else {
            effects := [ShowAlert("Error", ErrorMessage(body, status, statusText))];
          }
      }
      isLoading := false;
    }
  }
}
