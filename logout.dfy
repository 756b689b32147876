/**
 * The home screen's confirmed logout: a best-effort server logout, then the
 * local sign-out of the store and the saved KYC draft, then a reset to Login.
 */
module HomeLogout {
  import opened Wrappers
  import opened JsonValues
  import opened AuthSlice
  import opened KycSlice
  import opened Navigation
  import opened Effects
  import opened Store
  import opened DeviceStorage
  import KycFormRules

  const LogoutFailedAlert := ShowAlert("Logout failed", Plain("Could not complete logout."))

  /** The server logout is attempted only when both the refresh and the access token are present. */
  function ServerLogout(auth: AuthState): (r: Option<Request>)
    ensures r.Some? <==> Truthy(auth.refreshToken) && Truthy(auth.token)
    ensures r.Some? ==> r.value.LogoutRequest? && r.value.access == auth.token && r.value.refresh == auth.refreshToken
  {
    if Truthy(auth.refreshToken) && Truthy(auth.token) then Some(LogoutRequest(auth.token, auth.refreshToken)) else None
  }

  /**
   * The local part of logout, which runs once the server call (if any) has
   * settled, whatever its outcome. `removalFails` is the storage removal
   * rejecting: the store has already been cleared, and the failure alert
   * replaces the reset to Login.
   */
  method LocalLogout(store: AppStore, storage: Storage, removalFails: bool) returns (effects: seq<Effect>)
    modifies store, storage
    ensures store.auth == AuthSlice.Initial && store.kyc == KycSlice.Initial
    ensures removalFails ==> storage.entries == old(storage.entries) && effects == [LogoutFailedAlert]
    ensures !removalFails ==>
      storage.entries == old(storage.entries) - {KycFormRules.DraftKey}
      && KycFormRules.DraftKey !in storage.entries
      && effects == [ResetTo(Login)]
  {
    store.DispatchClearAuth();
    store.DispatchResetKyc();
    if removalFails {
      effects := [LogoutFailedAlert];
      return;
    }
    storage.RemoveItem(KycFormRules.DraftKey);
    effects := [ResetTo(Login)];
  }

  /**
   * A session signed in through OTP verification (access and refresh
   * tokens) logs out with a server request; one with only an access token,
   * or only the flag, does not.
   */
  lemma ServerLogoutNeedsBothTokens(access: string, refresh: string)
    requires access != "" && refresh != ""
    ensures ServerLogout(AuthSlice.Initial.(isAuthenticated := true, token := JStr(access), refreshToken := JStr(refresh)))
      == Some(LogoutRequest(JStr(access), JStr(refresh)))
    ensures ServerLogout(AuthSlice.Initial.(isAuthenticated := true, token := JStr(access))).None?
    ensures ServerLogout(AuthSlice.Initial.(isAuthenticated := true)).None?
  {
  }
}
