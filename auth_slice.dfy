/** The auth slice of the global store: the session the client believes it holds. */
module AuthSlice {
  import opened Wrappers
  import opened JsonValues

  /** Every optional field holds whatever was dispatched (the OTP screens pass raw response values); JNull is null. */
  datatype AuthState = AuthState(
    isAuthenticated: bool, userId: Json, mobileNumber: Json, email: Json, token: Json, refreshToken: Json)

  /** `Partial<AuthState>`: None is a key absent from the payload (an `isAuthenticated` of null is also None). */
  datatype AuthPatch = AuthPatch(
    isAuthenticated: Option<bool>, userId: Option<Json>, mobileNumber: Option<Json>,
    email: Option<Json>, token: Option<Json>, refreshToken: Option<Json>)

  const Initial := AuthState(false, JNull, JNull, JNull, JNull, JNull)

  const EmptyPatch := AuthPatch(None, None, None, None, None, None)

  /** `{ ...state, ...payload, isAuthenticated: payload.isAuthenticated ?? true }` */
  function SetAuth(state: AuthState, payload: AuthPatch): (r: AuthState)
    ensures r.isAuthenticated == payload.isAuthenticated.GetOr(true)
    ensures r.userId == payload.userId.GetOr(state.userId)
    ensures r.mobileNumber == payload.mobileNumber.GetOr(state.mobileNumber)
    ensures r.email == payload.email.GetOr(state.email)
    ensures r.token == payload.token.GetOr(state.token)
    ensures r.refreshToken == payload.refreshToken.GetOr(state.refreshToken)
  {
    AuthState(
      payload.isAuthenticated.GetOr(true),
      payload.userId.GetOr(state.userId),
      payload.mobileNumber.GetOr(state.mobileNumber),
      payload.email.GetOr(state.email),
      payload.token.GetOr(state.token),
      payload.refreshToken.GetOr(state.refreshToken))
  }

  function ClearAuth(state: AuthState): (r: AuthState)
    ensures r == Initial && !r.isAuthenticated
  {
    Initial
  }

  lemma InitialIsSignedOut()
    ensures !Initial.isAuthenticated
    ensures Initial.userId == JNull && Initial.mobileNumber == JNull && Initial.email == JNull
    ensures Initial.token == JNull && Initial.refreshToken == JNull
  {
  }

  /** Without an explicit flag, any update signs the user in; an update is idempotent. */
  lemma SetAuthDefaultsToSignedIn(state: AuthState, payload: AuthPatch)
    ensures payload.isAuthenticated.None? ==> SetAuth(state, payload).isAuthenticated
    ensures SetAuth(state, EmptyPatch) == state.(isAuthenticated := true)
    ensures SetAuth(SetAuth(state, payload), payload) == SetAuth(state, payload)
  {
  }

  /** Clearing only the flag leaves the stored tokens in place. */
  lemma SignOutFlagKeepsTokens(state: AuthState)
    ensures var r := SetAuth(state, EmptyPatch.(isAuthenticated := Some(false)));
      !r.isAuthenticated && r.token == state.token && r.refreshToken == state.refreshToken
      && r == state.(isAuthenticated := false)
  {
  }
}
