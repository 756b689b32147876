/**
 * The KYC enforcer mounted beside the navigator: it polls the status
 * endpoint while the user is signed in, merges each reading into the store,
 * and steers navigation when the status or the sign-in flag changes.
 */
module KycEnforcement {
  import opened Wrappers
  import opened JsonValues
  import opened KycSlice
  import opened AuthSlice
  import opened AuthApi
  import opened Navigation
  import opened Effects
  import opened Store

  const VerifiedTitle := "KYC Verified"
  const VerifiedText := "Your KYC is verified. All features are now unlocked."

  /**
   * The payload a successful poll dispatches: the fetched status, and each
   * fetched field unless it is null, in which case the value from the KYC
   * snapshot taken when the polling effect started.
   */
  function PollPayload(snapshot: KycState, fetched: Normalised): (p: KycPatch)
    ensures p.kycStatus == Some(fetched.kycStatus)
    ensures p.submittedAt.Some? && p.reviewedAt.Some? && p.rejectionReason.Some?
    ensures p.submittedAt.Some? && p.submittedAt.value == (if fetched.submittedAt != JNull then fetched.submittedAt else snapshot.submittedAt)
    ensures p.reviewedAt.Some? && p.reviewedAt.value == (if fetched.reviewedAt != JNull then fetched.reviewedAt else snapshot.reviewedAt)
    ensures p.rejectionReason.Some? && p.rejectionReason.value == (if fetched.rejectionReason != JNull then fetched.rejectionReason else snapshot.rejectionReason)
  {
    KycPatch(
      Some(fetched.kycStatus),
      Some(Coalesce(fetched.submittedAt, snapshot.submittedAt)),
      Some(Coalesce(fetched.reviewedAt, snapshot.reviewedAt)),
      Some(Coalesce(fetched.rejectionReason, snapshot.rejectionReason)))
  }

  /** What a poll leaves in the store, whatever the store held before it. */
  lemma PollMerge(current: KycState, snapshot: KycState, fetched: Normalised)
    ensures var r := SetKycStatus(current, PollPayload(snapshot, fetched));
      && r.kycStatus == fetched.kycStatus
      && r.submittedAt == (if fetched.submittedAt != JNull then fetched.submittedAt else snapshot.submittedAt)
      && r.reviewedAt == (if fetched.reviewedAt != JNull then fetched.reviewedAt else snapshot.reviewedAt)
      && r.rejectionReason == (if fetched.rejectionReason != JNull then fetched.rejectionReason else snapshot.rejectionReason)
  {
  }

  /** One evaluation of the redirect effect: the calls it makes and the remembered previous status. */
  datatype Decision = Decision(effects: seq<Effect>, prev: Option<KycStatus>)

  /** The success notice, and a reset to Home when the navigator is ready, on an edge into VERIFIED. */
  function VerifiedEdge(prev: Option<KycStatus>, status: KycStatus, ready: bool): seq<Effect> {
    if prev != Some(Verified) && status == Verified then
      [ShowAlert(VerifiedTitle, Plain(VerifiedText))] + (if ready then [ResetTo(Home)] else [])
    else []
  }

  /** The screen a status sends the user to, unless one of its screens is already showing. */
  function StatusRoute(status: KycStatus, current: Option<Screen>): seq<Effect> {
    match status
    case NotSubmitted =>
      if current != Some(KycIntro) && current != Some(KycForm) then [Navigate(KycIntro, map[])] else []
    case Pending => if current != Some(KycPending) then [Navigate(KycPending, map[])] else []
    case Rejected => if current != Some(KycRejected) then [Navigate(KycRejected, map[])] else []
    case Verified => []
  }

  /**
   * The redirect rule. `route` is the navigator's current route; it is read
   * only when the navigator is ready. Status navigation needs a signed-in user
   * and a completed poll; before the first poll the previous status is kept.
   */
  function Redirect(prev: Option<KycStatus>, status: KycStatus, isAuth: bool, firstFetched: bool,
                    ready: bool, route: Option<Screen>): (d: Decision)
    ensures d.prev == Some(status) || (isAuth && !firstFetched && d.prev == prev)
    ensures (isAuth && !firstFetched) || d.prev == Some(status)
    ensures |d.effects| <= 3
    ensures forall i :: 0 <= i < |d.effects| && d.effects[i].Navigate? ==> isAuth && firstFetched && status != Verified
  {
    var current := if ready then route else None;
    Decision(
      VerifiedEdge(prev, status, ready) + (if isAuth && firstFetched then StatusRoute(status, current) else []),
      if isAuth && !firstFetched then prev else Some(status))
  }

  predicate HasVerifiedAlert(effects: seq<Effect>) {
    ShowAlert(VerifiedTitle, Plain(VerifiedText)) in effects
  }

  predicate Navigates(effects: seq<Effect>) {
    exists i :: 0 <= i < |effects| && effects[i].Navigate?
  }

  /** The success notice fires exactly on an edge into VERIFIED, signed in or not; the reset to Home needs a ready navigator. */
  lemma VerifiedNoticeOnEdge(prev: Option<KycStatus>, status: KycStatus, isAuth: bool, firstFetched: bool,
                             ready: bool, route: Option<Screen>)
    ensures var d := Redirect(prev, status, isAuth, firstFetched, ready, route);
      && (HasVerifiedAlert(d.effects) <==> prev != Some(Verified) && status == Verified)
      && (ResetTo(Home) in d.effects <==> prev != Some(Verified) && status == Verified && ready)
  {
    var d := Redirect(prev, status, isAuth, firstFetched, ready, route);
    var current := if ready then route else None;
    var tail := if isAuth && firstFetched then StatusRoute(status, current) else [];
    assert d.effects == VerifiedEdge(prev, status, ready) + tail;
    assert forall e :: e in tail ==> e.Navigate?;
  }

  /** Signed in but before the first poll: only the success notice can fire, and the previous status is kept. */
  lemma NoRedirectBeforeFirstPoll(prev: Option<KycStatus>, status: KycStatus, ready: bool, route: Option<Screen>)
    ensures var d := Redirect(prev, status, true, false, ready, route);
      !Navigates(d.effects) && d.prev == prev
  {
  }

  /** Signed out: no status navigation, and the status is remembered. */
  lemma SignedOutOnlyRemembers(prev: Option<KycStatus>, status: KycStatus, firstFetched: bool,
                               ready: bool, route: Option<Screen>)
    ensures var d := Redirect(prev, status, false, firstFetched, ready, route);
      !Navigates(d.effects) && d.prev == Some(status)
  {
  }

  /**
   * Signed in after a poll: NOT_SUBMITTED leads to the intro unless the intro
   * or the form is showing, PENDING and REJECTED to their own screens unless
   * already there, and VERIFIED navigates nowhere.
   */
  lemma StatusNavigation(prev: Option<KycStatus>, status: KycStatus, ready: bool, route: Option<Screen>)
    ensures var d := Redirect(prev, status, true, true, ready, route);
      var current := if ready then route else None;
      && d.prev == Some(status)
      && (Navigate(KycIntro, map[]) in d.effects <==>
            status == NotSubmitted && current != Some(KycIntro) && current != Some(KycForm))
      && (Navigate(KycPending, map[]) in d.effects <==> status == Pending && current != Some(KycPending))
      && (Navigate(KycRejected, map[]) in d.effects <==> status == Rejected && current != Some(KycRejected))
      && (status == Verified ==> !Navigates(d.effects))
  {
  }

  /** The effects of feeding successive statuses to the redirect rule with a fixed sign-in state. */
  function Feed(prev: Option<KycStatus>, statuses: seq<KycStatus>, isAuth: bool, firstFetched: bool,
                ready: bool, route: Option<Screen>): (r: seq<seq<Effect>>)
    ensures |r| == |statuses|
    decreases |statuses|
  {
    if statuses == [] then []
    else
      var d := Redirect(prev, statuses[0], isAuth, firstFetched, ready, route);
      [d.effects] + Feed(d.prev, statuses[1..], isAuth, firstFetched, ready, route)
  }

  /**
   * Once each status is remembered (signed out, or signed in after a poll),
   * the success notice fires at step `i` exactly when that step enters
   * VERIFIED from another status.
   */
  lemma {:induction false} NoticeAtEntry(prev: Option<KycStatus>, statuses: seq<KycStatus>, isAuth: bool,
                                         firstFetched: bool, ready: bool, route: Option<Screen>, i: nat)
    requires !isAuth || firstFetched
    requires i < |statuses|
    ensures HasVerifiedAlert(Feed(prev, statuses, isAuth, firstFetched, ready, route)[i]) <==>
      statuses[i] == Verified && (if i == 0 then prev != Some(Verified) else statuses[i - 1] != Verified)
    decreases i
  {
    var d := Redirect(prev, statuses[0], isAuth, firstFetched, ready, route);
    var f := Feed(prev, statuses, isAuth, firstFetched, ready, route);
    var g := Feed(d.prev, statuses[1..], isAuth, firstFetched, ready, route);
    assert f == [d.effects] + g;
    if i == 0 {
      VerifiedNoticeOnEdge(prev, statuses[0], isAuth, firstFetched, ready, route);
    } else {
      NoticeAtEntry(d.prev, statuses[1..], isAuth, firstFetched, ready, route, i - 1);
      assert f[i] == g[i - 1];
      assert statuses[1..][i - 1] == statuses[i];
      if i >= 2 {
        assert statuses[1..][i - 2] == statuses[i - 1];
      }
    }
  }

  /** NOT_SUBMITTED, PENDING, VERIFIED, VERIFIED, REJECTED: one notice, at the first VERIFIED. */
  lemma NoticeOnceExample(ready: bool, route: Option<Screen>)
    ensures var f := Feed(None, [NotSubmitted, Pending, Verified, Verified, Rejected], true, true, ready, route);
      forall i :: 0 <= i < 5 ==> (HasVerifiedAlert(f[i]) <==> i == 2)
  {
    forall i | 0 <= i < 5
      ensures HasVerifiedAlert(Feed(None, [NotSubmitted, Pending, Verified, Verified, Rejected], true, true, ready, route)[i]) <==> i == 2
    {
      NoticeAtEntry(None, [NotSubmitted, Pending, Verified, Verified, Rejected], true, true, ready, route, i);
    }
  }

  /** A ticket for one in-flight status fetch: the polling run that issued it and the request. */
  datatype PollTicket = PollTicket(run: nat, request: Request)

  class KycEnforcer {
    var prevKyc: Option<KycStatus>        // the previous-status ref
    var firstFetched: bool                // set by the first successful poll, never cleared
    var interval: bool                    // the poll ref holds an interval not yet cleared
    var run: nat                          // the current run of the polling effect
    var mounted: bool                     // that run's liveness flag
    var snapshotAuth: AuthState           // auth as the current run captured it
    var snapshotKyc: KycState             // KYC state as the current run captured it
    var pollDeps: Option<bool>            // the sign-in flag the polling effect last ran with
    var redirectDeps: Option<(KycStatus, bool)>  // status and sign-in flag the redirect effect last ran with

    constructor ()
      ensures prevKyc == None && !firstFetched && !interval && !mounted
      ensures pollDeps == None && redirectDeps == None
    {
      prevKyc := None;
      firstFetched := false;
      interval := false;
      run := 0;
      mounted := false;
      snapshotAuth := AuthSlice.Initial;
      snapshotKyc := KycSlice.Initial;
      pollDeps := None;
      redirectDeps := None;
    }

    /**
     * The polling effect, evaluated on a render: it re-runs only when the
     * sign-in flag changed. The old run is torn down (its responses are
     * discarded, its interval cleared); the new run captures auth and KYC and,
     * when signed in, fetches at once and arms the interval.
     */
    method SyncPolling(auth: AuthState, kyc: KycState) returns (ticket: Option<PollTicket>)
      modifies this
      ensures pollDeps == Some(auth.isAuthenticated)
      ensures prevKyc == old(prevKyc) && firstFetched == old(firstFetched) && redirectDeps == old(redirectDeps)
      ensures old(pollDeps) == Some(auth.isAuthenticated) ==>
        ticket.None? && run == old(run) && mounted == old(mounted) && interval == old(interval)
        && snapshotAuth == old(snapshotAuth) && snapshotKyc == old(snapshotKyc)
      ensures old(pollDeps) != Some(auth.isAuthenticated) ==>
        run == old(run) + 1 && mounted && snapshotAuth == auth && snapshotKyc == kyc
        && interval == auth.isAuthenticated
        && ticket == (if auth.isAuthenticated then Some(PollTicket(run, StatusRequest(auth.token))) else None)
    {
      ticket := None;
      if pollDeps == Some(auth.isAuthenticated) {
        return;
      }
      // cleanup of the previous run
      mounted := false;
      interval := false;
      // the new run
      run := run + 1;
      mounted := true;
      snapshotAuth := auth;
      snapshotKyc := kyc;
      pollDeps := Some(auth.isAuthenticated);
      if auth.isAuthenticated {
        ticket := Some(PollTicket(run, StatusRequest(auth.token)));
        interval := true;
      }
    }

    /** An interval tick: the current run fetches again while its interval is armed and it captured a signed-in user. */
    method Tick() returns (ticket: Option<PollTicket>)
      ensures ticket.Some? <==> interval && snapshotAuth.isAuthenticated
      ensures ticket.Some? ==> ticket.value == PollTicket(run, StatusRequest(snapshotAuth.token))
    {
      if interval && snapshotAuth.isAuthenticated {
        ticket := Some(PollTicket(run, StatusRequest(snapshotAuth.token)));
      } else {
        ticket := None;
      }
    }

    /** The enforcer unmounts: the current run is torn down. */
    method Unmount()
      modifies this`mounted, this`interval
      ensures !mounted && !interval
    {
      mounted := false;
      interval := false;
    }

    /**
     * A fetch completes. A failure is swallowed; a success from a run that has
     * been torn down is discarded; otherwise the first-fetch flag is set and
     * the merged reading is dispatched.
     */
    method Deliver(ticket: PollTicket, outcome: Result<Normalised, FetchFailure>, store: AppStore)
      modifies this`firstFetched, store`kyc
      ensures outcome.Failure? || ticket.run != run || !mounted ==>
        firstFetched == old(firstFetched) && store.kyc == old(store.kyc)
      ensures outcome.Success? && ticket.run == run && mounted ==>
        firstFetched && store.kyc == SetKycStatus(old(store.kyc), PollPayload(snapshotKyc, outcome.value))
    {
      if outcome.Success? && ticket.run == run && mounted {
        firstFetched := true;
        store.DispatchSetKycStatus(PollPayload(snapshotKyc, outcome.value));
      }
    }

    /**
     * The redirect effect, evaluated on a render: it re-runs only when the
     * status or the sign-in flag changed, so setting the first-fetch flag alone
     * never re-evaluates it.
     */
    method OnRender(status: KycStatus, isAuth: bool, ready: bool, route: Option<Screen>) returns (effects: seq<Effect>)
      modifies this`redirectDeps, this`prevKyc
      ensures redirectDeps == Some((status, isAuth))
      ensures old(redirectDeps) == Some((status, isAuth)) ==> effects == [] && prevKyc == old(prevKyc)
      ensures old(redirectDeps) != Some((status, isAuth)) ==>
        var d := Redirect(old(prevKyc), status, isAuth, firstFetched, ready, route);
        effects == d.effects && prevKyc == d.prev
    {
      effects := [];
      if redirectDeps == Some((status, isAuth)) {
        return;
      }
      redirectDeps := Some((status, isAuth));
      var current := if ready then route else None;
      if prevKyc != Some(Verified) && status == Verified {
        effects := effects + [ShowAlert(VerifiedTitle, Plain(VerifiedText))];
        if ready {
          effects := effects + [ResetTo(Home)];
        }
      }
      if isAuth {
        if !firstFetched {
          return;
        }
        if status == NotSubmitted {
          if current != Some(KycIntro) && current != Some(KycForm) {
            effects := effects + [Navigate(KycIntro, map[])];
          }
        } else if status == Pending {
          if current != Some(KycPending) {
            effects := effects + [Navigate(KycPending, map[])];
          }
        } else if status == Rejected {
          if current != Some(KycRejected) {
            effects := effects + [Navigate(KycRejected, map[])];
          }
        }
      }
      prevKyc := Some(status);
    }
  }

  /**
   * The first-fetch flag outlives a sign-out. A user signs in, a poll
   * completes (with any reading), the user signs out (auth cleared, KYC
   * reset), then signs in again: before the new session's first poll
   * completes, the redirect already sends the user to the KYC intro.
   */
  method ReloginRedirectsBeforeFirstPoll(token: Json, reading: Normalised, route: Option<Screen>)
    returns (effects: seq<Effect>)
    requires route != Some(KycIntro) && route != Some(KycForm)
    ensures effects == [Navigate(KycIntro, map[])]
  {
    var store := new AppStore();
    var enforcer := new KycEnforcer();
    var signIn := AuthPatch(Some(true), None, None, None, Some(token), None);
    // first session
    store.DispatchSetAuth(signIn);
    var first := enforcer.SyncPolling(store.auth, store.kyc);
    var shown := enforcer.OnRender(store.kyc.kycStatus, store.auth.isAuthenticated, true, route);
    enforcer.Deliver(first.value, Success(reading), store);
    shown := enforcer.OnRender(store.kyc.kycStatus, store.auth.isAuthenticated, true, route);
    assert enforcer.firstFetched;
    // sign-out
    store.DispatchClearAuth();
    store.DispatchResetKyc();
    assert store.kyc.kycStatus == NotSubmitted && !store.auth.isAuthenticated;
    var none := enforcer.SyncPolling(store.auth, store.kyc);
    shown := enforcer.OnRender(store.kyc.kycStatus, store.auth.isAuthenticated, true, route);
    assert enforcer.firstFetched && enforcer.redirectDeps == Some((NotSubmitted, false));
    // second sign-in; its first fetch is still in flight
    store.DispatchSetAuth(signIn);
    var second := enforcer.SyncPolling(store.auth, store.kyc);
    assert store.kyc.kycStatus == NotSubmitted && store.auth.isAuthenticated && enforcer.firstFetched;
    effects := enforcer.OnRender(store.kyc.kycStatus, store.auth.isAuthenticated, true, route);
  }
}
