/**
 * The status endpoint's client side: the HTTP outcome check and the
 * normaliser that turns any response body into the KYC state shape; and the
 * body of the OTP-resend request.
 */
module AuthApi {
  import opened Wrappers
  import opened JsonValues
  import opened Text
  import opened KycSlice
  import opened Effects

  /** The normalised reading, with the body it was read from. */
  datatype Normalised = Normalised(
    kycStatus: KycStatus, submittedAt: Json, reviewedAt: Json, rejectionReason: Json, raw: Json)

  /** The three keyword families tried in order: PENDING, then VERIFIED, then REJECTED. */
  datatype Families = Families(pending: seq<string>, verified: seq<string>, rejected: seq<string>)

  /** Keywords for a status read from a nested status object. */
  const NestedFamilies := Families(["submitted", "pending"], ["verified", "completed"], ["rejected", "denied", "declined"])

  /** Keywords for a status read from the top level; these also accept "complete". */
  const TopFamilies :=
    Families(["pending", "pending_kyc", "submitted"], ["verified", "kyc_verified", "complete", "completed"],
             ["rejected", "denied", "declined"])

  /** What a thrown fetch failure carries. */
  datatype FetchFailure = HttpError(status: int, data: Json) | Unreachable

  function AsState(n: Normalised): KycState {
    KycState(n.kycStatus, n.submittedAt, n.reviewedAt, n.rejectionReason)
  }

  function Default(data: Json): Normalised {
    Normalised(NotSubmitted, JNull, JNull, JNull, data)
  }

  /**
   * Case-insensitive keyword classification, first family that matches wins.
   * The ensures give the meaning: which keywords occur, ignoring case.
   */
  function Classify(token: string, f: Families): (r: KycStatus)
    ensures r == Pending <==> Mentions(Lower(token), f.pending)
    ensures r == Verified <==> !Mentions(Lower(token), f.pending) && Mentions(Lower(token), f.verified)
    ensures r == Rejected <==>
      !Mentions(Lower(token), f.pending) && !Mentions(Lower(token), f.verified) && Mentions(Lower(token), f.rejected)
    ensures r == NotSubmitted <==>
      !Mentions(Lower(token), f.pending) && !Mentions(Lower(token), f.verified) && !Mentions(Lower(token), f.rejected)
  {
    var t := Lower(token);
    TestIffMentions(t, f.pending);
    TestIffMentions(t, f.verified);
    TestIffMentions(t, f.rejected);
    if Test(t, f.pending) then Pending
    else if Test(t, f.verified) then Verified
    else if Test(t, f.rejected) then Rejected
    else NotSubmitted
  }

  /** `data.kyc_status || data.kycStatus || null` */
  function NestedOf(data: Json): Json {
    Or(Or(Get(data, "kyc_status"), Get(data, "kycStatus")), JNull)
  }

  /** `nested && typeof nested === 'object'`: a truthy array or object. */
  predicate IsObjectLike(v: Json) {
    v.JObj? || v.JArr?
  }

  /** `a ?? b ?? null` over two keys of one object: the snake_case key wins unless it is null or absent. */
  function Field(v: Json, snake: string, camel: string): (r: Json)
    ensures Get(v, snake) != JNull ==> r == Get(v, snake)
    ensures Get(v, snake) == JNull ==> r == Get(v, camel)
    ensures r == JNull <==> Get(v, snake) == JNull && Get(v, camel) == JNull
  {
    Coalesce(Coalesce(Get(v, snake), Get(v, camel)), JNull)
  }

  /**
   * The nested branch: only the status object is read. A non-empty status
   * string is classified with the nested keywords; with neither `status` nor
   * `state` the reading stays NOT_SUBMITTED.
   */
  function FromNested(nested: Json, raw: Json): (r: Normalised)
    ensures r.raw == raw
    ensures Truthy(Get(nested, "status")) ==>
      r.kycStatus == Classify(ToText(Get(nested, "status")), NestedFamilies)
    ensures !Truthy(Get(nested, "status")) && Truthy(Get(nested, "state")) ==>
      r.kycStatus == Classify(ToText(Get(nested, "state")), NestedFamilies)
    ensures Get(nested, "status").JStr? && Get(nested, "status").s != "" ==>
      r.kycStatus == Classify(Get(nested, "status").s, NestedFamilies)
    ensures !Truthy(Get(nested, "status")) && !Truthy(Get(nested, "state")) ==> r.kycStatus == NotSubmitted
    ensures r.submittedAt == Field(nested, "submitted_at", "submittedAt")
    ensures r.reviewedAt == Field(nested, "verified_at", "reviewedAt")
    ensures r.rejectionReason == Field(nested, "rejection_reason", "rejectionReason")
  {
    var s := Or(Or(Get(nested, "status"), Get(nested, "state")), JStr(""));
    EmptyTextIsNotSubmitted(NestedFamilies);
    Normalised(
      Classify(ToText(s), NestedFamilies),
      Field(nested, "submitted_at", "submittedAt"),
      Field(nested, "verified_at", "reviewedAt"),
      Field(nested, "rejection_reason", "rejectionReason"),
      raw)
  }

  /**
   * The top-level branch: `(data.status || data.kycStatus || '').toString()`
   * classified with the top-level keywords, and the top-level fields.
   */
  function FromTop(data: Json): (r: Normalised)
    ensures r.raw == data
    ensures Truthy(Get(data, "status")) ==>
      r.kycStatus == Classify(ToText(Get(data, "status")), TopFamilies)
    ensures !Truthy(Get(data, "status")) && Truthy(Get(data, "kycStatus")) ==>
      r.kycStatus == Classify(ToText(Get(data, "kycStatus")), TopFamilies)
    ensures Get(data, "status").JStr? && Get(data, "status").s != "" ==>
      r.kycStatus == Classify(Get(data, "status").s, TopFamilies)
    ensures !Truthy(Get(data, "status")) && !Truthy(Get(data, "kycStatus")) ==> r.kycStatus == NotSubmitted
    ensures r.submittedAt == Field(data, "submitted_at", "submittedAt")
    ensures r.reviewedAt == Field(data, "verified_at", "reviewedAt")
    ensures r.rejectionReason == Field(data, "rejection_reason", "rejectionReason")
  {
    var top := Or(Or(Get(data, "status"), Get(data, "kycStatus")), JStr(""));
    EmptyTextIsNotSubmitted(TopFamilies);
    Normalised(
      Classify(ToText(top), TopFamilies),
      Field(data, "submitted_at", "submittedAt"),
      Field(data, "verified_at", "reviewedAt"),
      Field(data, "rejection_reason", "rejectionReason"),
      data)
  }

  /** Any response body to the KYC state shape; it never fails. */
  function Normalize(data: Json): (r: Normalised)
    ensures r.raw == data
    ensures !Truthy(data) ==> r == Default(data)
    ensures Truthy(data) && IsObjectLike(NestedOf(data)) ==> r == FromNested(NestedOf(data), data)
    ensures Truthy(data) && !IsObjectLike(NestedOf(data)) ==> r == FromTop(data)
  {
    if !Truthy(data) then Default(data)
    else
      var nested := NestedOf(data);
      if Truthy(nested) && IsObjectLike(nested) then FromNested(nested, data)
      else FromTop(data)
  }

  /** `fetchKycStatus` after the request: a non-OK status throws `{status, data}`. */
  function FetchKycStatus(response: Response): (r: Result<Normalised, FetchFailure>)
    ensures response.NetworkError? ==> r == Failure(Unreachable)
    ensures response.Response? && !response.ok ==> r == Failure(HttpError(response.status, Data(response.body)))
    ensures response.Response? && response.ok ==> r == Success(Normalize(Data(response.body)))
    ensures r.Success? ==> response.Response? && response.ok && r.value.raw == Data(response.body)
  {
    match response
    case NetworkError(_) => Failure(Unreachable)
    case Response(ok, status, _, body) =>
      if !ok then Failure(HttpError(status, Data(body))) else Success(Normalize(Data(body)))
  }

  /** The body of `resendOtp`: `{ purpose }`, plus `email` when it is non-empty. */
  function ResendPayload(email: string, purpose: string): (r: Json)
    ensures r.JObj? && Get(r, "purpose") == JStr(purpose)
    ensures "email" in r.fields <==> email != ""
    ensures email != "" ==> Get(r, "email") == JStr(email)
    ensures r.fields.Keys <= {"purpose", "email"}
  {
    if email != "" then JObj(map["purpose" := JStr(purpose), "email" := JStr(email)])
    else JObj(map["purpose" := JStr(purpose)])
  }

  // ---------------------------------------------------------------- properties

  /** A null, empty or otherwise falsy body reads as the initial state. */
  lemma FalsyBodyIsInitial(data: Json)
    requires !Truthy(data)
    ensures AsState(Normalize(data)) == KycSlice.Initial
  {
  }

  /** A token that matches no keyword of any family leaves NOT_SUBMITTED. */
  lemma UnknownTokenIsNotSubmitted(token: string, f: Families)
    requires forall w :: w in f.pending + f.verified + f.rejected ==> !Contains(Lower(token), w)
    ensures Classify(token, f) == NotSubmitted
  {
    forall w | w in f.pending ensures !Contains(Lower(token), w) { assert w in f.pending + f.verified + f.rejected; }
    forall w | w in f.verified ensures !Contains(Lower(token), w) { assert w in f.pending + f.verified + f.rejected; }
    forall w | w in f.rejected ensures !Contains(Lower(token), w) { assert w in f.pending + f.verified + f.rejected; }
    NoneMentioned(Lower(token), f.pending);
    NoneMentioned(Lower(token), f.verified);
    NoneMentioned(Lower(token), f.rejected);
  }

  lemma NoneMentioned(t: string, words: seq<string>)
    requires forall w :: w in words ==> !Contains(t, w)
    ensures !Mentions(t, words)
  {
    forall k, i | 0 <= k < |words| && 0 <= i <= |t| ensures !OccursAt(t, words[k], i) {
      assert words[k] in words;
    }
  }

  /** Empty text mentions no keyword, so it classifies as NOT_SUBMITTED. */
  lemma EmptyTextIsNotSubmitted(f: Families)
    requires forall k :: 0 <= k < |f.pending| ==> f.pending[k] != ""
    requires forall k :: 0 <= k < |f.verified| ==> f.verified[k] != ""
    requires forall k :: 0 <= k < |f.rejected| ==> f.rejected[k] != ""
    ensures Classify("", f) == NotSubmitted
  {
    assert Lower("") == "";
  }

  /** No start position that leaves room for `w` holds the first letter of `w`. */
  lemma AbsentByFirstLetter(t: string, w: string)
    requires |w| > 0
    requires forall i :: 0 <= i && i + |w| <= |t| ==> t[i] != w[0]
    ensures !Contains(t, w)
  {
    forall i | 0 <= i <= |t| ensures !OccursAt(t, w, i) {
      if i + |w| <= |t| {
        assert t[i..i + |w|][0] == t[i] != w[0];
      }
    }
  }

  /** Classification ignores case: an upper-cased token reads the same. */
  lemma ClassifyIgnoresCase(token: string, f: Families)
    ensures Classify(Upper(token), f) == Classify(token, f)
  {
    LowerOfUpper(token);
  }

  /**
   * When a status object is present, the top-level fields are ignored: the
   * reading equals that of a body holding only the status object.
   */
  lemma NestedObjectAlone(data: Json)
    requires Truthy(data) && IsObjectLike(NestedOf(data))
    ensures AsState(Normalize(data)) == AsState(Normalize(JObj(map["kyc_status" := NestedOf(data)])))
  {
    var alone := JObj(map["kyc_status" := NestedOf(data)]);
    assert Get(alone, "kyc_status") == NestedOf(data);
    assert NestedOf(alone) == NestedOf(data);
  }

  /**
   * A string-valued `kyc_status` is never classified: replacing it by any other
   * non-empty string does not change the reading.
   */
  lemma StringKycStatusIgnored(fields: map<string, Json>, s1: string, s2: string)
    requires s1 != "" && s2 != ""
    ensures AsState(Normalize(JObj(fields["kyc_status" := JStr(s1)])))
         == AsState(Normalize(JObj(fields["kyc_status" := JStr(s2)])))
  {
    var d1 := JObj(fields["kyc_status" := JStr(s1)]);
    var d2 := JObj(fields["kyc_status" := JStr(s2)]);
    assert NestedOf(d1) == JStr(s1) && NestedOf(d2) == JStr(s2);
    assert Get(d1, "status") == Get(d2, "status") && Get(d1, "kycStatus") == Get(d2, "kycStatus");
    assert Get(d1, "submitted_at") == Get(d2, "submitted_at") && Get(d1, "submittedAt") == Get(d2, "submittedAt");
    assert Get(d1, "verified_at") == Get(d2, "verified_at") && Get(d1, "reviewedAt") == Get(d2, "reviewedAt");
    assert Get(d1, "rejection_reason") == Get(d2, "rejection_reason");
    assert Get(d1, "rejectionReason") == Get(d2, "rejectionReason");
  }

  /** The top level reads `status`, falling back to `kycStatus` when `status` is falsy. */
  lemma TopLevelStatusFallback(fields: map<string, Json>, token: string)
    requires "kyc_status" !in fields && "status" !in fields
    ensures Normalize(JObj(fields["kycStatus" := JStr(token)])).kycStatus == Classify(token, TopFamilies)
  {
    var d := JObj(fields["kycStatus" := JStr(token)]);
    assert Get(d, "kycStatus") == JStr(token);
  }

  /** The application's own name for "not submitted", sent at the top level, reads as PENDING. */
  lemma NotSubmittedWordReadsPending()
    ensures Normalize(JObj(map["status" := JStr("NOT_SUBMITTED")])).kycStatus == Pending
  {
    var d := JObj(map["status" := JStr("NOT_SUBMITTED")]);
    assert Get(d, "status") == JStr("NOT_SUBMITTED");
    NotSubmittedIsPendingWord();
  }

  lemma NotSubmittedIsPendingWord()
    ensures Classify("NOT_SUBMITTED", TopFamilies) == Pending
  {
    assert OccursAt(Lower("NOT_SUBMITTED"), TopFamilies.pending[2], 4);
  }

  /** "complete" reads VERIFIED at the top level. */
  lemma CompleteVerifiedAtTopLevel()
    ensures Normalize(JObj(map["status" := JStr("complete")])).kycStatus == Verified
  {
    var top := JObj(map["status" := JStr("complete")]);
    assert Get(top, "status") == JStr("complete");
    assert NestedOf(top) == JNull;
    CompleteIsTopVerifiedWord();
  }

  lemma CompleteIsTopVerifiedWord()
    ensures Classify("complete", TopFamilies) == Verified
  {
    LowerWithoutCapitals("complete");
    assert OccursAt("complete", TopFamilies.verified[2], 0);
    NoneMentioned("complete", TopFamilies.pending) by {
      AbsentByFirstLetter("complete", "pending");
      AbsentByFirstLetter("complete", "pending_kyc");
      AbsentByFirstLetter("complete", "submitted");
    }
  }

  /** Inside a status object "complete" is not a keyword: it reads NOT_SUBMITTED. */
  lemma CompleteUnknownWhenNested()
    ensures Normalize(JObj(map["kyc_status" := JObj(map["status" := JStr("complete")])])).kycStatus == NotSubmitted
  {
    var inner := JObj(map["status" := JStr("complete")]);
    var body := JObj(map["kyc_status" := inner]);
    assert NestedOf(body) == inner;
    assert Get(inner, "status") == JStr("complete");
    LowerWithoutCapitals("complete");
    NoneMentioned("complete", NestedFamilies.pending) by {
      AbsentByFirstLetter("complete", "submitted");
      AbsentByFirstLetter("complete", "pending");
    }
    NoneMentioned("complete", NestedFamilies.verified) by {
      AbsentByFirstLetter("complete", "verified");
      AbsentByFirstLetter("complete", "completed");
    }
    NoneMentioned("complete", NestedFamilies.rejected) by {
      AbsentByFirstLetter("complete", "rejected");
      AbsentByFirstLetter("complete", "denied");
      AbsentByFirstLetter("complete", "declined");
    }
  }

  /** The word a status object would carry for each status. */
  function StatusWord(status: KycStatus): string {
    match status
    case NotSubmitted => "none"
    case Pending => "pending"
    case Verified => "verified"
    case Rejected => "rejected"
  }

  /** A state written as a snake_case status object. */
  function StatusObject(k: KycState): Json {
    JObj(map[
      "status" := JStr(StatusWord(k.kycStatus)),
      "submitted_at" := k.submittedAt,
      "verified_at" := k.reviewedAt,
      "rejection_reason" := k.rejectionReason])
  }

  /** A body carrying a state as a nested status object. */
  function StatusPayload(k: KycState): Json {
    JObj(map["kyc_status" := StatusObject(k)])
  }

  lemma ClassifyStatusWord(status: KycStatus)
    ensures Classify(StatusWord(status), NestedFamilies) == status
  {
    var w := StatusWord(status);
    LowerWithoutCapitals(w);
    match status
    case NotSubmitted =>
      NoneMentioned(w, NestedFamilies.pending);
      NoneMentioned(w, NestedFamilies.verified);
      NoneMentioned(w, NestedFamilies.rejected);
    case Pending =>
      assert OccursAt(w, NestedFamilies.pending[1], 0);
    case Verified =>
      NoneMentioned(w, NestedFamilies.pending) by {
        AbsentByFirstLetter(w, "submitted");
        AbsentByFirstLetter(w, "pending");
      }
      assert OccursAt(w, NestedFamilies.verified[0], 0);
    case Rejected =>
      NoneMentioned(w, NestedFamilies.pending) by {
        AbsentByFirstLetter(w, "submitted");
        AbsentByFirstLetter(w, "pending");
      }
      NoneMentioned(w, NestedFamilies.verified) by {
        AbsentByFirstLetter(w, "verified");
        AbsentByFirstLetter(w, "completed");
      }
      assert OccursAt(w, NestedFamilies.rejected[0], 0);
  }

  lemma StatusObjectFields(k: KycState)
    ensures FromNested(StatusObject(k), StatusPayload(k)).kycStatus == k.kycStatus
    ensures Field(StatusObject(k), "submitted_at", "submittedAt") == k.submittedAt
    ensures Field(StatusObject(k), "verified_at", "reviewedAt") == k.reviewedAt
    ensures Field(StatusObject(k), "rejection_reason", "rejectionReason") == k.rejectionReason
  {
    var w := StatusWord(k.kycStatus);
    assert w != "" && Get(StatusObject(k), "status") == JStr(w);
    ClassifyStatusWord(k.kycStatus);
    CamelKeysAbsent(k);
  }

  /** The snake_case encoding carries none of the camelCase keys. */
  lemma CamelKeysAbsent(k: KycState)
    ensures Get(StatusObject(k), "submittedAt") == JNull
    ensures Get(StatusObject(k), "reviewedAt") == JNull
    ensures Get(StatusObject(k), "rejectionReason") == JNull
  {
    var keys := StatusObject(k).fields.Keys;
    assert keys == {"status", "submitted_at", "verified_at", "rejection_reason"};
    assert "submittedAt"[9] != "submitted_at"[9];
    assert "reviewedAt" != "verified_at" && "rejectionReason"[9] != "rejection_reason"[9];
  }

  /** Every state survives being sent as a status object and normalised back. */
  lemma {:induction false} StatusPayloadRoundTrip(k: KycState)
    ensures AsState(Normalize(StatusPayload(k))) == k
  {
    assert NestedOf(StatusPayload(k)) == StatusObject(k);
    StatusObjectFields(k);
  }
}
