/**
 * Reading the session out of a successful OTP verification response, as the
 * registration and login OTP screens both do, and what they do with it.
 */
module Credentials {
  import opened Wrappers
  import opened JsonValues
  import opened AuthSlice
  import opened Effects

  /**
   * `(data && (data.userId || data.id || data.user?.id)) ?? null`: the first
   * truthy alternative, in that order; nothing truthy when the body is not an object.
   */
  function UserIdOf(data: Json): (r: Json)
    ensures var ids := [Get(data, "userId"), Get(data, "id"), Get(Get(data, "user"), "id")];
      && (Truthy(r) <==> Truthy(FirstTruthy(ids)))
      && (Truthy(r) ==> r == FirstTruthy(ids))
    ensures !data.JObj? ==> !Truthy(r)
  {
    var ids := [Get(data, "userId"), Get(data, "id"), Get(Get(data, "user"), "id")];
    assert ids[1..] == [ids[1], ids[2]] && ids[1..][1..] == [ids[2]] && ids[1..][1..][1..] == [];
    Coalesce(And(data, Or(Or(Get(data, "userId"), Get(data, "id")), Get(Get(data, "user"), "id"))), JNull)
  }

  /**
   * `(data && (data.access || data.accessToken || data.token || data.authToken)) ?? null`:
   * the first truthy alternative, in that order; nothing truthy when the body is not an object.
   */
  function AccessOf(data: Json): (r: Json)
    ensures var tokens := [Get(data, "access"), Get(data, "accessToken"), Get(data, "token"), Get(data, "authToken")];
      && (Truthy(r) <==> Truthy(FirstTruthy(tokens)))
      && (Truthy(r) ==> r == FirstTruthy(tokens))
    ensures !data.JObj? ==> !Truthy(r)
  {
    var tokens := [Get(data, "access"), Get(data, "accessToken"), Get(data, "token"), Get(data, "authToken")];
    assert tokens[1..] == [tokens[1], tokens[2], tokens[3]] && tokens[1..][1..] == [tokens[2], tokens[3]];
    assert tokens[1..][1..][1..] == [tokens[3]] && tokens[1..][1..][1..][1..] == [];
    Coalesce(And(data, Or(Or(Or(Get(data, "access"), Get(data, "accessToken")), Get(data, "token")), Get(data, "authToken"))), JNull)
  }

  /**
   * `(data && (data.refresh || data.refreshToken)) ?? null`: the first truthy
   * alternative; nothing truthy when the body is not an object.
   */
  function RefreshOf(data: Json): (r: Json)
    ensures var refreshes := [Get(data, "refresh"), Get(data, "refreshToken")];
      && (Truthy(r) <==> Truthy(FirstTruthy(refreshes)))
      && (Truthy(r) ==> r == FirstTruthy(refreshes))
    ensures !data.JObj? ==> !Truthy(r)
  {
    var refreshes := [Get(data, "refresh"), Get(data, "refreshToken")];
    assert refreshes[1..] == [refreshes[1]] && refreshes[1..][1..] == [];
    Coalesce(And(data, Or(Get(data, "refresh"), Get(data, "refreshToken"))), JNull)
  }

  /** The first truthy value of a list, or a falsy value when there is none: the reference reading of a `||` chain. */
  function FirstTruthy(values: seq<Json>): (r: Json)
    ensures Truthy(r) <==> exists i :: 0 <= i < |values| && Truthy(values[i])
    ensures Truthy(r) ==> exists i :: 0 <= i < |values| && r == values[i] && forall j :: 0 <= j < i ==> !Truthy(values[j])
  {
    if |values| == 0 then JNull
    else if Truthy(values[0]) then values[0]
    else
      var rest := FirstTruthy(values[1..]);
      assert forall i :: 1 <= i < |values| ==> values[i] == values[1..][i - 1];
      rest
  }

  /** The session a verified OTP establishes: signed in, with the extracted credentials. */
  function SignInPatch(data: Json, email: string, mobileNumber: Json): (p: AuthPatch)
    ensures p.isAuthenticated == Some(true)
    ensures p.userId.Some? && p.mobileNumber.Some? && p.email.Some? && p.token.Some? && p.refreshToken.Some?
    ensures p.email.Some? && (Truthy(p.email.value) <==> email != "")
    ensures p.email.Some? && (email != "" ==> p.email.value == JStr(email)) && (email == "" ==> p.email.value == JNull)
    ensures p.userId == Some(UserIdOf(data)) && p.mobileNumber == Some(mobileNumber)
    ensures p.token == Some(AccessOf(data)) && p.refreshToken == Some(RefreshOf(data))
  {
    AuthPatch(Some(true), Some(UserIdOf(data)), Some(mobileNumber), Some(StrOrNull(email)),
              Some(AccessOf(data)), Some(RefreshOf(data)))
  }

  /** Verification replaces the whole session, whatever was signed in before. */
  lemma SignInReplacesSession(s1: AuthState, s2: AuthState, data: Json, email: string, mobileNumber: Json)
    ensures SetAuth(s1, SignInPatch(data, email, mobileNumber)) == SetAuth(s2, SignInPatch(data, email, mobileNumber))
    ensures var r := SetAuth(s1, SignInPatch(data, email, mobileNumber));
      && r.isAuthenticated && r.mobileNumber == mobileNumber
      && (Truthy(r.email) <==> email != "")
      && r.token == AccessOf(data) && r.refreshToken == RefreshOf(data)
  {
  }

  /**
   * Logging the first characters of the access token (`access.slice(0, 8)`)
   * throws unless the token is falsy, a string or an array; the throw lands
   * in the handler's network-error branch after the session was stored.
   */
  predicate TokenLoggable(access: Json)
    ensures access.JStr? || access.JArr? || access.JNull? ==> TokenLoggable(access)
    ensures access.JObj? ==> !TokenLoggable(access)
    ensures access.JNum? ==> (TokenLoggable(access) <==> access.n == 0)
    ensures access.JBool? ==> (TokenLoggable(access) <==> !access.b)
  {
    !Truthy(access) || access.JStr? || access.JArr?
  }

  /** How a rejected verification is reported: inline under the field, or in an alert. */
  datatype Rejection = InlineError(text: string) | RejectionAlert(message: Message)

  /**
   * An array-valued `otp_code` becomes the inline error, its entries on
   * separate lines; otherwise the alert shows the body, or
   * "Verification failed (<status> <statusText>)" without one.
   */
  function VerifyRejection(data: Json, status: int, statusText: string): (r: Rejection)
    ensures r.InlineError? <==> Get(data, "otp_code").JArr?
    ensures r.InlineError? ==> r.text == JoinItems(Get(data, "otp_code").items, "\n")
    ensures r.RejectionAlert? && Truthy(data) ==> r.message == BodyMessage(data)
    ensures !Truthy(data) ==> r == RejectionAlert(Plain("Verification failed " + StatusLineSuffix(status, statusText)))
  {
    var codes := Get(data, "otp_code");
    if Truthy(data) && Truthy(codes) && codes.JArr? then InlineError(JoinItems(codes.items, "\n"))
    else if Truthy(data) then RejectionAlert(BodyMessage(data))
    else RejectionAlert(Plain("Verification failed " + StatusLineSuffix(status, statusText)))
  }

  /** Two OTP messages come out one per line; a plain-text body is shown as it is. */
  lemma RejectionExamples(status: int, statusText: string)
    ensures VerifyRejection(JObj(map["otp_code" := JArr([JStr("Invalid"), JStr("Expired")])]), status, statusText)
      == InlineError("Invalid\nExpired")
    ensures VerifyRejection(JStr("Too many attempts"), status, statusText) == RejectionAlert(Plain("Too many attempts"))
  {
    var items := [JStr("Invalid"), JStr("Expired")];
    assert seq(|items|, i requires 0 <= i < |items| => ElementText(items[i])) == ["Invalid", "Expired"];
    assert Join(["Invalid", "Expired"], "\n") == "Invalid" + "\n" + Join(["Expired"], "\n");
  }
}
