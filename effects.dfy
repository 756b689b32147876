/**
 * What the client does to the outside world, as data: alerts, navigator calls
 * and HTTP requests are emitted in order; responses come back as inputs.
 */
module Effects {
  import opened Wrappers
  import opened JsonValues
  import opened Navigation

  /** Alert text. `JSON.stringify` is not modelled: a serialised body stays `JsonOf(body)`. */
  datatype Message = Plain(text: string) | JsonOf(value: Json)

  /** The requests the client issues, one constructor per endpoint and body shape. */
  datatype Request =
    | StatusRequest(bearer: Json)
    | SubmitKycRequest(bearer: Json, aadhaar: string, pan: string)
    | UploadKycRequest(bearer: Json, aadhaarField: Option<string>, panField: Option<string>, uri: string, fileName: string, mime: string)
    | LogoutRequest(access: Json, refresh: Json)
    | RegisterRequest(email: string, phone: string, password: string)
    | VerifyOtpRequest(email: string, otp: string)
    | RegisterResendRequest(email: string)
    | LoginOtpRequest(email: string, phone: string, password: string)
    | VerifyLoginOtpRequest(email: string, phone: string, otp: string)
    | ResendOtpRequest(payload: Json)
    | ResetRequest(email: string)
    | ResetConfirmRequest(email: string, otp: string, newPassword: string)

  datatype Effect =
    | ShowAlert(title: string, message: Message)
    | Navigate(screen: Screen, params: map<string, string>)
    | ResetTo(screen: Screen)
    | Send(request: Request)

  /**
   * A response body: parsed JSON, or a body that is not JSON. Once `json()`
   * has consumed a body it cannot be read again, so no text of an unparsed
   * body ever reaches the client.
   */
  datatype Body = Parsed(value: Json) | Unparsed

  /** The outcome of an awaited `fetch`: it rejected (with the error's message), or a response arrived. */
  datatype Response =
    | NetworkError(reason: string)
    | Response(ok: bool, status: int, statusText: string, body: Body)

  /** `try { data = await response.json() } catch { data = null }` */
  function Data(body: Body): (data: Json)
    ensures body.Unparsed? ==> data == JNull
    ensures body.Parsed? ==> data == body.value
    ensures Truthy(data) ==> body.Parsed?
  {
    match body
    case Parsed(v) => v
    case Unparsed => JNull
  }

  /** `typeof data === 'string' ? data : JSON.stringify(data)` */
  function BodyMessage(data: Json): (m: Message)
    ensures m.Plain? <==> data.JStr?
    ensures m.Plain? ==> m.text == data.s
    ensures m.JsonOf? ==> m.value == data
  {
    if data.JStr? then Plain(data.s) else JsonOf(data)
  }

  predicate Sends(effects: seq<Effect>) {
    exists i :: 0 <= i < |effects| && effects[i].Send?
  }

  /** "(<status>)", the suffix of the status-code fallback messages. */
  function StatusSuffix(status: int): string {
    "(" + IntText(status) + ")"
  }

  /** "(<status> <statusText>)" */
  function StatusLineSuffix(status: int, statusText: string): string {
    "(" + IntText(status) + " " + statusText + ")"
  }
}
