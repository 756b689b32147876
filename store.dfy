/** The global store: one auth slice and one KYC slice, changed only through their reducers. */
module Store {
  import opened AuthSlice
  import opened KycSlice

  class AppStore {
    var auth: AuthState
    var kyc: KycState

    constructor ()
      ensures auth == AuthSlice.Initial && kyc == KycSlice.Initial
    {
      auth := AuthSlice.Initial;
      kyc := KycSlice.Initial;
    }

    method DispatchSetAuth(payload: AuthPatch)
      modifies this`auth
      ensures auth == SetAuth(old(auth), payload)
    {
      auth := SetAuth(auth, payload);
    }

    method DispatchClearAuth()
      modifies this`auth
      ensures auth == ClearAuth(old(auth))
    {
      auth := ClearAuth(auth);
    }

    method DispatchSetKycStatus(payload: KycPatch)
      modifies this`kyc
      ensures kyc == SetKycStatus(old(kyc), payload)
    {
      kyc := SetKycStatus(kyc, payload);
    }

    method DispatchResetKyc()
      modifies this`kyc
      ensures kyc == ResetKyc(old(kyc))
    {
      kyc := ResetKyc(kyc);
    }
  }
}
