/** The KYC slice of the global store: the mirrored verification status. */
module KycSlice {
  import opened Wrappers
  import opened JsonValues

  datatype KycStatus = NotSubmitted | Pending | Verified | Rejected

  /** The date and reason fields hold whatever the status endpoint returned; JNull is null. */
  datatype KycState = KycState(kycStatus: KycStatus, submittedAt: Json, reviewedAt: Json, rejectionReason: Json)

  /** `Partial<KycState>`: None is a key absent from the payload. */
  datatype KycPatch = KycPatch(
    kycStatus: Option<KycStatus>, submittedAt: Option<Json>, reviewedAt: Option<Json>, rejectionReason: Option<Json>)

  const Initial := KycState(NotSubmitted, JNull, JNull, JNull)

  const EmptyPatch := KycPatch(None, None, None, None)

  /** `{ ...state, ...payload }` */
  function SetKycStatus(state: KycState, payload: KycPatch): (r: KycState)
    ensures r.kycStatus == payload.kycStatus.GetOr(state.kycStatus)
    ensures r.submittedAt == payload.submittedAt.GetOr(state.submittedAt)
    ensures r.reviewedAt == payload.reviewedAt.GetOr(state.reviewedAt)
    ensures r.rejectionReason == payload.rejectionReason.GetOr(state.rejectionReason)
  {
    state.(kycStatus := payload.kycStatus.GetOr(state.kycStatus),
           submittedAt := payload.submittedAt.GetOr(state.submittedAt),
           reviewedAt := payload.reviewedAt.GetOr(state.reviewedAt),
           rejectionReason := payload.rejectionReason.GetOr(state.rejectionReason))
  }

  function ResetKyc(state: KycState): (r: KycState)
    ensures r == Initial
  {
    Initial
  }

  /** One payload spread over another: the later payload's keys win. */
  function Overlay(first: KycPatch, second: KycPatch): KycPatch {
    KycPatch(
      if second.kycStatus.Some? then second.kycStatus else first.kycStatus,
      if second.submittedAt.Some? then second.submittedAt else first.submittedAt,
      if second.reviewedAt.Some? then second.reviewedAt else first.reviewedAt,
      if second.rejectionReason.Some? then second.rejectionReason else first.rejectionReason)
  }

  lemma InitialIsNotSubmitted()
    ensures Initial.kycStatus == NotSubmitted
    ensures Initial.submittedAt == JNull && Initial.reviewedAt == JNull && Initial.rejectionReason == JNull
  {
  }

  /** An empty payload changes nothing, and a payload applied twice acts once. */
  lemma SetKycStatusIdentityAndIdempotent(state: KycState, payload: KycPatch)
    ensures SetKycStatus(state, EmptyPatch) == state
    ensures SetKycStatus(SetKycStatus(state, payload), payload) == SetKycStatus(state, payload)
  {
  }

  /** Two updates in a row are one update with the payloads spread in the same order. */
  lemma SetKycStatusComposes(state: KycState, first: KycPatch, second: KycPatch)
    ensures SetKycStatus(SetKycStatus(state, first), second) == SetKycStatus(state, Overlay(first, second))
  {
  }

  /** A payload that carries every key replaces the whole state, whatever it was. */
  lemma FullPayloadReplaces(s1: KycState, s2: KycState, payload: KycPatch)
    requires payload.kycStatus.Some? && payload.submittedAt.Some?
    requires payload.reviewedAt.Some? && payload.rejectionReason.Some?
    ensures SetKycStatus(s1, payload) == SetKycStatus(s2, payload)
  {
  }
}
