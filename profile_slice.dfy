/** The profile slice: a display projection of the user's profile. It is not registered in the store. */
module ProfileSlice {
  import opened Wrappers

  datatype ProfileState = ProfileState(
    name: string, profilePhotoUrl: string, email: string, mobileNumber: string,
    alternateContact: string, communicationPreferences: seq<string>,
    kycStatus: string, kycVerifiedAt: string)

  /** `Partial<ProfileState>`: None is a key absent from the payload. */
  datatype ProfilePatch = ProfilePatch(
    name: Option<string>, profilePhotoUrl: Option<string>, email: Option<string>, mobileNumber: Option<string>,
    alternateContact: Option<string>, communicationPreferences: Option<seq<string>>,
    kycStatus: Option<string>, kycVerifiedAt: Option<string>)

  const Initial := ProfileState("", "", "", "", "", [], "", "")

  const EmptyPatch := ProfilePatch(None, None, None, None, None, None, None, None)

  /** `{ ...state, ...payload }` */
  function SetProfile(state: ProfileState, payload: ProfilePatch): (r: ProfileState)
    ensures r.name == payload.name.GetOr(state.name)
    ensures r.profilePhotoUrl == payload.profilePhotoUrl.GetOr(state.profilePhotoUrl)
    ensures r.email == payload.email.GetOr(state.email)
    ensures r.mobileNumber == payload.mobileNumber.GetOr(state.mobileNumber)
    ensures r.alternateContact == payload.alternateContact.GetOr(state.alternateContact)
    ensures r.communicationPreferences == payload.communicationPreferences.GetOr(state.communicationPreferences)
    ensures r.kycStatus == payload.kycStatus.GetOr(state.kycStatus)
    ensures r.kycVerifiedAt == payload.kycVerifiedAt.GetOr(state.kycVerifiedAt)
  {
    ProfileState(
      payload.name.GetOr(state.name),
      payload.profilePhotoUrl.GetOr(state.profilePhotoUrl),
      payload.email.GetOr(state.email),
      payload.mobileNumber.GetOr(state.mobileNumber),
      payload.alternateContact.GetOr(state.alternateContact),
      payload.communicationPreferences.GetOr(state.communicationPreferences),
      payload.kycStatus.GetOr(state.kycStatus),
      payload.kycVerifiedAt.GetOr(state.kycVerifiedAt))
  }

  function ClearProfile(state: ProfileState): (r: ProfileState)
    ensures r == Initial
  {
    Initial
  }

  lemma InitialIsBlank()
    ensures Initial.name == "" && Initial.email == "" && Initial.mobileNumber == ""
    ensures Initial.profilePhotoUrl == "" && Initial.alternateContact == ""
    ensures Initial.kycStatus == "" && Initial.kycVerifiedAt == ""
    ensures Initial.communicationPreferences == []
  {
  }

  /** An empty payload changes nothing, and a payload applied twice acts once. */
  lemma SetProfileIdentityAndIdempotent(state: ProfileState, payload: ProfilePatch)
    ensures SetProfile(state, EmptyPatch) == state
    ensures SetProfile(SetProfile(state, payload), payload) == SetProfile(state, payload)
  {
  }
}
