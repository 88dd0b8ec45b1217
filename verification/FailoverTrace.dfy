/** What the log of one request looks like, whatever its awaits answer. */
module FailoverTrace {
  import opened Domain
  import opened SelectSubscription
  import opened HandleMessages

  /** The log, read column by column. */
  datatype View = View(
    leases: seq<SubId>,
    releases: seq<SubId>,
    forwards: seq<Forward>,
    harvests: seq<(SubId, int)>,
    cancels: seq<nat>,
    refreshes: seq<(SubId, Token)>)

  function ViewOf(events: seq<Event>): View {
    View(Leases(events), Releases(events), Forwards(events), Harvests(events), Cancels(events), Refreshes(events))
  }

  function Extend(v: View, e: Event): View {
    match e
    case Leased(id) => v.(leases := v.leases + [id])
    case Released(id) => v.(releases := v.releases + [id])
    case Forwarded(sub, base, token) => v.(forwards := v.forwards + [Forward(sub, base, token)])
    case Harvested(id, status) => v.(harvests := v.harvests + [(id, status)])
    case Cancelled(n) => v.(cancels := v.cancels + [n])
    case Refreshed(id, token) => v.(refreshes := v.refreshes + [(id, token)])
    case _ => v
  }

  lemma ViewExtends(events: seq<Event>, e: Event)
    ensures ViewOf(events + [e]) == Extend(ViewOf(events), e)
  {
    assert (events + [e])[..|events|] == events;
  }

  ghost predicate Distinct<T>(s: seq<T>) {
    forall i, j :: 0 <= i < j < |s| ==> s[i] != s[j]
  }

  // ---------------------------------------------------------------- how each move extends the log

  lemma ReleaseView(l: Local)
    ensures ViewOf(Release(l).events) ==
            if l.HoldsLease() then Extend(ViewOf(l.events), Released(l.current.value.id)) else ViewOf(l.events)
  {
    if l.HoldsLease() {
      ViewExtends(l.events, Released(l.current.value.id));
    }
  }

  lemma LeaseView(l: Local, s: Subscription)
    ensures ViewOf(TakeLease(l, s).events) == Extend(ViewOf(l.events), Leased(s.id))
  {
    ViewExtends(l.events, Leased(s.id));
    ViewExtends(l.events + [Leased(s.id)], AskedToken(s));
  }

  lemma CancelView(l: Local, next: Pc)
    requires Forwards(l.events) != []
    ensures ViewOf(Cancel(l, next).events) == Extend(ViewOf(l.events), Cancelled(|Forwards(l.events)| - 1))
  {
    ViewExtends(l.events, Cancelled(|Forwards(l.events)| - 1));
  }

  lemma DispatchView(maxAttempts: nat, l: Local, token: Token, retried: bool)
    requires l.current.Some? && !l.isReleased
    ensures ViewOf(Dispatch(maxAttempts, l, token, retried).events) ==
            Extend(ViewOf(l.events),
                   if CanBuild(l.Provider(), token) then Forwarded(l.current.value, l.Provider(), token)
                   else Released(l.current.value.id))
  {
    ViewExtends(l.events, Forwarded(l.current.value, l.Provider(), token));
    ReleaseView(l);
  }

  // ---------------------------------------------------------------- leases

  /** At most `maxAttempts` leases on distinct subscriptions, each released before the next is
      taken; a lease is held exactly inside an attempt and until a returned relay is released. */
  ghost predicate LeasesOk(maxAttempts: nat, pc: Pc, attempt: nat, tried: set<SubId>, held: Option<SubId>,
                           leases: seq<SubId>, releases: seq<SubId>) {
    && Distinct(leases)
    && (forall id :: id in leases <==> id in tried)
    && |leases| <= maxAttempts
    && (InAttempt(pc) ==> held.Some?)
    && (held.Some? ==> InAttempt(pc) || pc.Returned?)
    && leases == releases + (if held.Some? then [held.value] else [])
    && match pc
       case Authenticating => |leases| == attempt == 0
       case Listing => |leases| == attempt < maxAttempts
       case Ranking(_) => |leases| == attempt < maxAttempts
       case Ended(_) => true
       case _ => |leases| == attempt + 1
  }

  function Held(l: Local): Option<SubId> {
    if l.HoldsLease() then Some(l.current.value.id) else None
  }

  // ---------------------------------------------------------------- responses

  /** A status whose response is not relayed. */
  predicate GivenUp(status: int) {
    status == 401 || status == 429 || status >= 500
  }

  predicate AwaitsResponse(pc: Pc) {
    pc.Forwarding? || pc.Harvesting? || pc.Returned?
  }

  /** Every response is harvested once, in order, for the subscription that gave it; every body
      but that of the response being decided on is cancelled once, in order. */
  ghost predicate ResponsesOk(pc: Pc, current: Option<Subscription>,
                              forwards: seq<Forward>, harvests: seq<(SubId, int)>, cancels: seq<nat>) {
    && |cancels| <= |harvests| <= |forwards| <= |cancels| + 1
    && (forall i :: 0 <= i < |harvests| ==> harvests[i].0 == forwards[i].sub.id)
    && (forall i :: 0 <= i < |cancels| ==> cancels[i] == i && GivenUp(harvests[i].1))
    && (AwaitsResponse(pc) ==> |forwards| == |cancels| + 1)
    && (pc.Forwarding? ==> |harvests| == |cancels|)
    && (pc.Harvesting? || pc.Returned? ==>
          && |harvests| == |forwards| && current.Some?
          && harvests[|harvests| - 1] == (current.value.id, pc.status))
    && (pc.Returned? ==> !GivenUp(pc.status))
    && (!AwaitsResponse(pc) && !(pc.Ended? && pc.why.Threw?) ==> |forwards| == |cancels|)
  }

  // ---------------------------------------------------------------- forwards

  ghost predicate NoneFor(id: SubId, fs: seq<Forward>, n: int)
    requires n <= |fs|
  {
    forall i :: 0 <= i < n ==> fs[i].sub.id != id
  }

  ghost predicate NotRefreshed(id: SubId, rs: seq<(SubId, Token)>) {
    forall i :: 0 <= i < |rs| ==> rs[i].0 != id
  }

  /** Forwards i and j went to the same subscription, j retrying i after a 401 with the token of a
      refresh that was done in between. */
  ghost predicate IsRetry(forwards: seq<Forward>, harvests: seq<(SubId, int)>, refreshes: seq<(SubId, Token)>, i: nat, j: nat)
    requires i < j < |forwards|
  {
    && j == i + 1
    && i < |harvests| && harvests[i].1 == 401
    && (forwards[i].sub.id, forwards[j].token) in refreshes
  }

  ghost predicate RepeatsAreRetries(forwards: seq<Forward>, harvests: seq<(SubId, int)>, refreshes: seq<(SubId, Token)>) {
    forall i, j :: 0 <= i < j < |forwards| && forwards[i].sub.id == forwards[j].sub.id ==>
      IsRetry(forwards, harvests, refreshes, i, j)
  }

  /** All that holds of single forwards and refreshes, wherever the request is. */
  ghost predicate ForwardsOk(tried: set<SubId>, provider: ProviderId, forwards: seq<Forward>, refreshes: seq<(SubId, Token)>) {
    && (forall i :: 0 <= i < |forwards| ==>
          && forwards[i].sub.id in tried
          && forwards[i].base == provider
          && CanBuild(provider, forwards[i].token))
    && (forall i :: 0 <= i < |refreshes| ==> refreshes[i].0 in tried)
    && (forall i, j :: 0 <= i < j < |refreshes| ==> refreshes[i].0 != refreshes[j].0)
  }

  /** What the current attempt has forwarded so far. */
  ghost predicate AttemptOk(pc: Pc, current: Option<Subscription>, tried: set<SubId>,
                            forwards: seq<Forward>, harvests: seq<(SubId, int)>, refreshes: seq<(SubId, Token)>)
  {
    var n := |forwards|;
    (InAttempt(pc) || pc.Returned? ==> current.Some?) &&
    (InAttempt(pc) ==> current.value.id in tried) &&
    match pc
    case AwaitingToken => NoneFor(current.value.id, forwards, n) && NotRefreshed(current.value.id, refreshes)
    case Forwarding(retried) => LastIs(current.value, forwards) && (!retried ==> FirstTry(current.value, forwards, refreshes))
    case Harvesting(retried, _) => LastIs(current.value, forwards) && (!retried ==> FirstTry(current.value, forwards, refreshes))
    case Discarding401 =>
      FirstTry(current.value, forwards, refreshes) && n == |harvests| && harvests[n - 1].1 == 401
    case Refreshing =>
      FirstTry(current.value, forwards, refreshes) && n == |harvests| && harvests[n - 1].1 == 401
    case Returned(_) => LastIs(current.value, forwards)
    case _ => true
  }

  ghost predicate LastIs(s: Subscription, forwards: seq<Forward>) {
    |forwards| >= 1 && forwards[|forwards| - 1].sub == s
  }

  ghost predicate FirstTry(s: Subscription, forwards: seq<Forward>, refreshes: seq<(SubId, Token)>) {
    LastIs(s, forwards) && NoneFor(s.id, forwards, |forwards| - 1) && NotRefreshed(s.id, refreshes)
  }

  ghost predicate Consistent(maxAttempts: nat, l: Local, v: View) {
    && LeasesOk(maxAttempts, l.pc, l.attempt, l.tried, Held(l), v.leases, v.releases)
    && ResponsesOk(l.pc, l.current, v.forwards, v.harvests, v.cancels)
    && ForwardsOk(l.tried, l.Provider(), v.forwards, v.refreshes)
    && RepeatsAreRetries(v.forwards, v.harvests, v.refreshes)
    && AttemptOk(l.pc, l.current, l.tried, v.forwards, v.harvests, v.refreshes)
  }

  // ---------------------------------------------------------------- each move keeps it

  lemma RepeatsSurvive(f: seq<Forward>, h: seq<(SubId, int)>, r: seq<(SubId, Token)>, x: (SubId, int), y: (SubId, Token))
    requires RepeatsAreRetries(f, h, r)
    ensures RepeatsAreRetries(f, h + [x], r) && RepeatsAreRetries(f, h, r + [y])
  {
  }

  lemma RepeatsAfterFirst(f: seq<Forward>, h: seq<(SubId, int)>, r: seq<(SubId, Token)>, next: Forward)
    requires RepeatsAreRetries(f, h, r) && NoneFor(next.sub.id, f, |f|)
    ensures RepeatsAreRetries(f + [next], h, r)
  {
    forall i, j | 0 <= i < j < |f + [next]| && (f + [next])[i].sub.id == (f + [next])[j].sub.id
      ensures IsRetry(f + [next], h, r, i, j)
    {
      assert IsRetry(f, h, r, i, j);
    }
  }

  lemma RepeatsAfterRetry(f: seq<Forward>, h: seq<(SubId, int)>, r: seq<(SubId, Token)>, next: Forward)
    requires RepeatsAreRetries(f, h, r)
    requires LastIs(next.sub, f) && NoneFor(next.sub.id, f, |f| - 1)
    requires |f| == |h| && h[|f| - 1].1 == 401 && (next.sub.id, next.token) in r
    ensures RepeatsAreRetries(f + [next], h, r)
  {
    forall i, j | 0 <= i < j < |f + [next]| && (f + [next])[i].sub.id == (f + [next])[j].sub.id
      ensures IsRetry(f + [next], h, r, i, j)
    {
      if j < |f| {
        assert IsRetry(f, h, r, i, j);
      }
    }
  }

  lemma GiveUpKeeps(maxAttempts: nat, l: Local, v: View)
    requires Consistent(maxAttempts, l, v) && InAttempt(l.pc)
    ensures Consistent(maxAttempts, Fail(l), Extend(v, Released(l.current.value.id)))
    ensures !AwaitsResponse(l.pc) ==>
              Consistent(maxAttempts, FailOver(maxAttempts, l), Extend(v, Released(l.current.value.id)))
  {
    hide RepeatsAreRetries, ForwardsOk;
  }

  lemma TakeLeaseKeeps(maxAttempts: nat, l: Local, v: View, s: Subscription)
    requires Consistent(maxAttempts, l, v) && l.pc.Ranking? && s.id !in l.tried
    ensures Consistent(maxAttempts, TakeLease(l, s), Extend(v, Leased(s.id)))
  {
    hide RepeatsAreRetries;
    var l', v' := TakeLease(l, s), Extend(v, Leased(s.id));
    assert s.id !in v.leases;
    assert LeasesOk(maxAttempts, l'.pc, l'.attempt, l'.tried, Held(l'), v'.leases, v'.releases) by {
      hide ResponsesOk, ForwardsOk, AttemptOk;
    }
  }

  lemma FirstForwardKeeps(maxAttempts: nat, l: Local, v: View, token: Token)
    requires Consistent(maxAttempts, l, v) && l.pc.AwaitingToken? && CanBuild(l.Provider(), token)
    ensures Consistent(maxAttempts, Dispatch(maxAttempts, l, token, false),
                       Extend(v, Forwarded(l.current.value, l.Provider(), token)))
  {
    RepeatsAfterFirst(v.forwards, v.harvests, v.refreshes, Forward(l.current.value, l.Provider(), token));
    hide RepeatsAreRetries;
  }

  lemma RefreshedKeeps(maxAttempts: nat, l: Local, v: View, token: Token)
    requires Consistent(maxAttempts, l, v) && l.pc.Refreshing?
    ensures Consistent(maxAttempts, Goto(Log(l, Refreshed(l.current.value.id, token)), Discarding),
                       Extend(v, Refreshed(l.current.value.id, token)))
  {
    RepeatsSurvive(v.forwards, v.harvests, v.refreshes, (l.current.value.id, 0), (l.current.value.id, token));
    hide RepeatsAreRetries;
  }

  lemma SecondForwardKeeps(maxAttempts: nat, l: Local, v: View, token: Token)
    requires Consistent(maxAttempts, l, v) && l.pc.Refreshing? && CanBuild(l.Provider(), token)
    ensures Consistent(maxAttempts, Dispatch(maxAttempts, Log(l, Refreshed(l.current.value.id, token)), token, true),
                       Extend(Extend(v, Refreshed(l.current.value.id, token)), Forwarded(l.current.value, l.Provider(), token)))
  {
    var r := v.refreshes + [(l.current.value.id, token)];
    RepeatsSurvive(v.forwards, v.harvests, v.refreshes, (l.current.value.id, 0), (l.current.value.id, token));
    assert r[|v.refreshes|] == (l.current.value.id, token);
    RepeatsAfterRetry(v.forwards, v.harvests, r, Forward(l.current.value, l.Provider(), token));
    RefreshedKeeps(maxAttempts, l, v, token);
    hide RepeatsAreRetries;
  }

  lemma HarvestKeeps(maxAttempts: nat, l: Local, v: View, status: int)
    requires Consistent(maxAttempts, l, v) && l.pc.Forwarding?
    ensures Consistent(maxAttempts, Goto(Log(l, Harvested(l.current.value.id, status)), Harvesting(l.pc.retried, status)),
                       Extend(v, Harvested(l.current.value.id, status)))
  {
    RepeatsSurvive(v.forwards, v.harvests, v.refreshes, (l.current.value.id, status), (0, l.current.value.access));
    hide RepeatsAreRetries, ForwardsOk;
  }

  lemma JudgeKeeps(maxAttempts: nat, l: Local, v: View)
    requires Consistent(maxAttempts, l, v) && l.pc.Harvesting?
    requires |Forwards(l.events)| == |v.forwards|
    ensures Consistent(maxAttempts, Judge(l, l.pc.retried, l.pc.status),
                       if GivenUp(l.pc.status) then Extend(v, Cancelled(|v.forwards| - 1)) else v)
  {
    hide RepeatsAreRetries, ForwardsOk;
  }

  lemma QuietKeeps(maxAttempts: nat, l: Local, v: View, a: Answer)
    requires Consistent(maxAttempts, l, v) && !InAttempt(l.pc)
    requires Resume(maxAttempts, l, a).events == l.events
    ensures Consistent(maxAttempts, Resume(maxAttempts, l, a), v)
  {
    hide RepeatsAreRetries, ForwardsOk, Choose, Forwards;
  }

  ghost predicate TraceOk(maxAttempts: nat, l: Local) {
    Consistent(maxAttempts, l, ViewOf(l.events))
  }

  lemma FailKeeps(maxAttempts: nat, l: Local)
    requires TraceOk(maxAttempts, l) && InAttempt(l.pc)
    ensures TraceOk(maxAttempts, Fail(l))
    ensures !AwaitsResponse(l.pc) ==> TraceOk(maxAttempts, FailOver(maxAttempts, l))
  {
    hide ResponsesOk, ForwardsOk, RepeatsAreRetries, AttemptOk, ViewOf;
    GiveUpKeeps(maxAttempts, l, ViewOf(l.events));
    ReleaseView(l);
  }

  lemma DispatchKeeps(maxAttempts: nat, l: Local, token: Token)
    requires TraceOk(maxAttempts, l) && l.pc.AwaitingToken?
    ensures TraceOk(maxAttempts, Dispatch(maxAttempts, l, token, false))
  {
    assert l.HoldsLease();
    hide LeasesOk, ResponsesOk, ForwardsOk, AttemptOk, RepeatsAreRetries, ViewOf;
    if CanBuild(l.Provider(), token) {
      FirstForwardKeeps(maxAttempts, l, ViewOf(l.events), token);
      DispatchView(maxAttempts, l, token, false);
    } else {
      FailKeeps(maxAttempts, l);
    }
  }

  lemma RetrySends(maxAttempts: nat, l: Local, token: Token)
    requires TraceOk(maxAttempts, l) && l.pc.Refreshing? && CanBuild(l.Provider(), token)
    ensures TraceOk(maxAttempts, Dispatch(maxAttempts, Log(l, Refreshed(l.current.value.id, token)), token, true))
  {
    assert l.HoldsLease();
    var logged := Log(l, Refreshed(l.current.value.id, token));
    hide Consistent, ViewOf, Extend, FailOver;
    ViewExtends(l.events, Refreshed(l.current.value.id, token));
    SecondForwardKeeps(maxAttempts, l, ViewOf(l.events), token);
    DispatchView(maxAttempts, logged, token, true);
  }

  lemma FailOverForgetsPlace(maxAttempts: nat, l: Local, pc: Pc)
    ensures FailOver(maxAttempts, Goto(l, pc)) == FailOver(maxAttempts, l)
  {
  }

  lemma RetryGivesUp(maxAttempts: nat, l: Local, token: Token)
    requires TraceOk(maxAttempts, l) && l.pc.Refreshing?
    ensures TraceOk(maxAttempts, FailOver(maxAttempts, Log(l, Refreshed(l.current.value.id, token))))
  {
    assert l.current.Some?;
    var logged := Log(l, Refreshed(l.current.value.id, token));
    hide Consistent, ViewOf, Extend, FailOver;
    ViewExtends(l.events, Refreshed(l.current.value.id, token));
    RefreshedKeeps(maxAttempts, l, ViewOf(l.events), token);
    FailKeeps(maxAttempts, Goto(logged, Discarding));
    FailOverForgetsPlace(maxAttempts, logged, Discarding);
  }

  lemma RetryKeeps(maxAttempts: nat, l: Local, token: Token)
    requires TraceOk(maxAttempts, l) && l.pc.Refreshing?
    ensures TraceOk(maxAttempts, Dispatch(maxAttempts, Log(l, Refreshed(l.current.value.id, token)), token, true))
  {
    assert l.current.Some?;
    hide TraceOk, FailOver;
    if CanBuild(l.Provider(), token) {
      RetrySends(maxAttempts, l, token);
    } else {
      RetryGivesUp(maxAttempts, l, token);
    }
  }

  lemma ResponseKeeps(maxAttempts: nat, l: Local, status: int)
    requires TraceOk(maxAttempts, l) && l.pc.Forwarding?
    ensures TraceOk(maxAttempts, Goto(Log(l, Harvested(l.current.value.id, status)), Harvesting(l.pc.retried, status)))
  {
    HarvestKeeps(maxAttempts, l, ViewOf(l.events), status);
    ViewExtends(l.events, Harvested(l.current.value.id, status));
    hide LeasesOk, ResponsesOk, ForwardsOk, AttemptOk, RepeatsAreRetries, ViewOf;
  }

  lemma JudgedKeeps(maxAttempts: nat, l: Local)
    requires TraceOk(maxAttempts, l) && l.pc.Harvesting?
    ensures TraceOk(maxAttempts, Judge(l, l.pc.retried, l.pc.status))
  {
    var v := ViewOf(l.events);
    assert Forwards(l.events) == v.forwards != [];
    hide LeasesOk, ResponsesOk, ForwardsOk, AttemptOk, RepeatsAreRetries, ViewOf;
    JudgeKeeps(maxAttempts, l, v);
    CancelView(l, Discarding);
    CancelView(l, Discarding401);
  }

  lemma OutsideKeeps(maxAttempts: nat, l: Local, a: Answer)
    requires TraceOk(maxAttempts, l) && !InAttempt(l.pc)
    ensures TraceOk(maxAttempts, Resume(maxAttempts, l, a))
  {
    hide LeasesOk, ResponsesOk, ForwardsOk, AttemptOk, RepeatsAreRetries, ViewOf;
    if l.pc.Ranking? && a.Gathered? && Choose(l.pc.pool, l.tried, a.info, a.nowMs).Chosen? {
      var s := Choose(l.pc.pool, l.tried, a.info, a.nowMs).sub;
      TakeLeaseKeeps(maxAttempts, l, ViewOf(l.events), s);
      LeaseView(l, s);
    } else {
      QuietKeeps(maxAttempts, l, ViewOf(l.events), a);
    }
  }

  lemma AskRefreshKeeps(maxAttempts: nat, l: Local)
    requires TraceOk(maxAttempts, l) && l.pc.Discarding401?
    ensures TraceOk(maxAttempts, Goto(Log(l, AskedRefresh(l.current.value)), Refreshing))
  {
    ViewExtends(l.events, AskedRefresh(l.current.value));
    hide LeasesOk, ResponsesOk, ForwardsOk, RepeatsAreRetries, ViewOf;
    assert l.current.Some?;
  }

  lemma ResumeKeeps(maxAttempts: nat, l: Local, a: Answer)
    requires TraceOk(maxAttempts, l)
    ensures TraceOk(maxAttempts, Resume(maxAttempts, l, a))
  {
    hide TraceOk;
    if !InAttempt(l.pc) {
      OutsideKeeps(maxAttempts, l, a);
    } else {
      FailKeeps(maxAttempts, l);
      match (l.pc, a) {
        case (AwaitingToken, TokenIs(token)) => DispatchKeeps(maxAttempts, l, token);
        case (Forwarding(_), Response(status)) => ResponseKeeps(maxAttempts, l, status);
        case (Harvesting(_, _), Done) => JudgedKeeps(maxAttempts, l);
        case (Discarding401, Done) => AskRefreshKeeps(maxAttempts, l);
        case (Refreshing, TokenIs(token)) => RetryKeeps(maxAttempts, l, token);
        case _ =>
      }
    }
  }

  lemma StartOk(maxAttempts: nat, input: Input)
    ensures TraceOk(maxAttempts, Start(maxAttempts, input))
  {
  }

  lemma {:induction false} EveryTraceOk(maxAttempts: nat, input: Input, answers: seq<Answer>)
    ensures TraceOk(maxAttempts, Run(maxAttempts, Start(maxAttempts, input), answers))
  {
    if answers != [] {
      var front := answers[..|answers| - 1];
      EveryTraceOk(maxAttempts, input, front);
      ResumeKeeps(maxAttempts, Run(maxAttempts, Start(maxAttempts, input), front), answers[|answers| - 1]);
    }
  }

  // ---------------------------------------------------------------- what one call promises

  /** The adapter may release a returned relay as often as it likes: the first time gives the lease
      back, later times do nothing. */
  lemma ReleaseOnce(maxAttempts: nat, l: Local)
    requires TraceOk(maxAttempts, l) && l.pc.Returned?
    ensures TraceOk(maxAttempts, Release(l))
    ensures !Release(l).HoldsLease() && Release(Release(l)) == Release(l)
    ensures Releases(Release(l).events) == Leases(Release(l).events)
  {
    var v := ViewOf(l.events);
    if l.HoldsLease() {
      var v' := Extend(v, Released(l.current.value.id));
      assert Consistent(maxAttempts, Release(l), v');
    }
    ReleaseView(l);
  }

  /** A complete account of the responses of a call that relays one. */
  ghost predicate RelayAccount(v: View, status: int) {
    var n := |v.forwards|;
    && n >= 1 && |v.harvests| == n && |v.cancels| == n - 1
    && (forall i :: 0 <= i < n ==> v.harvests[i].0 == v.forwards[i].sub.id)
    && (forall i :: 0 <= i < n - 1 ==> v.cancels[i] == i && GivenUp(v.harvests[i].1))
    && v.harvests[n - 1].1 == status
    && RepeatsAreRetries(v.forwards, v.harvests, v.refreshes)
  }

  /** The failover trace of a call that relays a response: the subscriptions it leased are distinct
      and at most `maxAttempts`; each forward was harvested once, for its own subscription; every
      body but the relayed one was cancelled once; a second forward to a subscription follows a 401
      and a successful refresh; the relayed status is neither 401 nor 429 and is below 500. */
  lemma RelayedTrace(maxAttempts: nat, input: Input, answers: seq<Answer>)
    requires Run(maxAttempts, Start(maxAttempts, input), answers).pc.Returned?
    ensures var l := Run(maxAttempts, Start(maxAttempts, input), answers);
            && Distinct(Leases(l.events)) && 1 <= |Leases(l.events)| <= maxAttempts
            && RelayAccount(ViewOf(l.events), l.pc.status)
            && l.pc.status != 401 && l.pc.status != 429 && l.pc.status < 500
  {
    EveryTraceOk(maxAttempts, input, answers);
  }

  /** A call that does not relay has given every lease back, in the order it took them. */
  lemma EndedReleases(maxAttempts: nat, input: Input, answers: seq<Answer>)
    requires Run(maxAttempts, Start(maxAttempts, input), answers).pc.Ended?
    ensures var l := Run(maxAttempts, Start(maxAttempts, input), answers);
            Releases(l.events) == Leases(l.events) && |Leases(l.events)| <= maxAttempts && Distinct(Leases(l.events))
  {
    EveryTraceOk(maxAttempts, input, answers);
  }

  // ---------------------------------------------------------------- how the forwards grow

  predicate WantsToken(pc: Pc) {
    pc.AwaitingToken? || pc.Refreshing?
  }

  /** A request's forwards grow only when a token arrives, by one forward of the current
      subscription, to the provider of the model, with that token. */
  ghost predicate ForwardsGrow(l: Local, a: Answer, f: seq<Forward>, f': seq<Forward>) {
    || f' == f
    || (WantsToken(l.pc) && a.TokenIs? && l.current.Some?
        && f' == f + [Forward(l.current.value, l.Provider(), a.token)])
  }

  lemma ForwardsExtend(events: seq<Event>, e: Event)
    ensures Forwards(events + [e]) == Forwards(events) + if e.Forwarded? then [Forward(e.sub, e.base, e.token)] else []
  {
    assert (events + [e])[..|events|] == events;
  }

  lemma ReleaseForwards(l: Local)
    ensures Forwards(Release(l).events) == Forwards(l.events)
  {
    if l.HoldsLease() {
      ForwardsExtend(l.events, Released(l.current.value.id));
    }
  }

  lemma DispatchForwards(maxAttempts: nat, l: Local, token: Token, retried: bool)
    requires l.current.Some?
    ensures var f' := Forwards(Dispatch(maxAttempts, l, token, retried).events);
            f' == Forwards(l.events) || f' == Forwards(l.events) + [Forward(l.current.value, l.Provider(), token)]
  {
    ForwardsExtend(l.events, Forwarded(l.current.value, l.Provider(), token));
    ReleaseForwards(l);
  }

  lemma ResumeForwards(maxAttempts: nat, l: Local, a: Answer)
    requires Sane(l)
    ensures ForwardsGrow(l, a, Forwards(l.events), Forwards(Resume(maxAttempts, l, a).events))
  {
    hide Forwards, Choose;
    ReleaseForwards(l);
    match l.pc {
      case Ranking(pool) =>
        if a.Gathered? && Choose(pool, l.tried, a.info, a.nowMs).Chosen? {
          var s := Choose(pool, l.tried, a.info, a.nowMs).sub;
          ForwardsExtend(l.events, Leased(s.id));
          ForwardsExtend(l.events + [Leased(s.id)], AskedToken(s));
        }
      case AwaitingToken =>
        if a.TokenIs? {
          DispatchForwards(maxAttempts, l, a.token, false);
        }
      case Forwarding(_) =>
        if a.Response? {
          ForwardsExtend(l.events, Harvested(l.current.value.id, a.status));
        }
      case Harvesting(_, _) =>
        ForwardsExtend(l.events, Cancelled(if Forwards(l.events) == [] then 0 else |Forwards(l.events)| - 1));
      case Discarding401 =>
        ForwardsExtend(l.events, AskedRefresh(l.current.value));
      case Refreshing =>
        if a.TokenIs? {
          ForwardsExtend(l.events, Refreshed(l.current.value.id, a.token));
          DispatchForwards(maxAttempts, Log(l, Refreshed(l.current.value.id, a.token)), a.token, true);
        }
      case _ =>
    }
  }
}
