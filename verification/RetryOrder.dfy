/** The order of events within the log of one request, and how much work a request makes. */
module RetryOrder {
  import opened Domain
  import opened SelectSubscription
  import opened HandleMessages
  import opened FailoverTrace

  type Events = seq<Event>

  predicate To(e: Event, id: SubId) {
    e.Forwarded? && e.sub.id == id
  }

  /** Between the forwards at positions a and d of the log, the first was answered 401 and then a
      refresh gave the token that the second carries. */
  ghost predicate RetryBetween(log: Events, a: int, d: int)
    requires 0 <= a < d < |log| && log[a].Forwarded? && log[d].Forwarded?
  {
    exists b, c :: a < b < c < d
      && log[b] == Harvested(log[a].sub.id, 401) && log[c] == Refreshed(log[a].sub.id, log[d].token)
  }

  ghost predicate NoForwardWithin(log: Events, a: int, d: int)
    requires 0 <= a <= d <= |log|
  {
    forall e :: a < e < d ==> !log[e].Forwarded?
  }

  ghost predicate OrderOk(log: Events) {
    forall a, d :: 0 <= a < d < |log| && log[a].Forwarded? && To(log[d], log[a].sub.id) ==>
      RetryBetween(log, a, d) && NoForwardWithin(log, a, d)
  }

  // ---------------------------------------------------------------- what the current attempt has sent

  ghost predicate NoneTo(log: Events, id: SubId) {
    forall a :: 0 <= a < |log| ==> !To(log[a], id)
  }

  /** The one forward to `id` is at position a, and is the last of all. */
  ghost predicate SoleAt(log: Events, id: SubId, a: int) {
    && 0 <= a < |log| && To(log[a], id)
    && (forall e :: 0 <= e < a ==> !To(log[e], id))
    && NoForwardWithin(log, a, |log|)
  }

  ghost predicate SentOnce(log: Events, id: SubId) {
    exists a :: SoleAt(log, id, a)
  }

  /** That forward was answered 401. */
  ghost predicate Rejected401(log: Events, id: SubId) {
    exists a, b :: SoleAt(log, id, a) && a < b < |log| && log[b] == Harvested(id, 401)
  }

  ghost predicate AttemptOrder(pc: Pc, id: SubId, log: Events) {
    match pc
    case AwaitingToken => NoneTo(log, id)
    case Forwarding(retried) => !retried ==> SentOnce(log, id)
    case Harvesting(retried, status) =>
      !retried ==> SentOnce(log, id) && (status == 401 ==> Rejected401(log, id))
    case Discarding401 => Rejected401(log, id)
    case Refreshing => Rejected401(log, id)
    case _ => true
  }

  ghost predicate SentAreTried(log: Events, tried: set<SubId>) {
    forall a :: 0 <= a < |log| && log[a].Forwarded? ==> log[a].sub.id in tried
  }

  ghost predicate Ordered(l: Local) {
    && OrderOk(l.events) && SentAreTried(l.events, l.tried)
    && (InAttempt(l.pc) ==>
          l.current.Some? && l.current.value.id in l.tried && AttemptOrder(l.pc, l.current.value.id, l.events))
  }

  // ---------------------------------------------------------------- appending to the log

  lemma AppendNote(log: Events, e: Event, tried: set<SubId>)
    requires !e.Forwarded? && OrderOk(log) && SentAreTried(log, tried)
    ensures OrderOk(log + [e]) && SentAreTried(log + [e], tried)
  {
    forall a, d | 0 <= a < d < |log + [e]| && (log + [e])[a].Forwarded? && To((log + [e])[d], (log + [e])[a].sub.id)
      ensures RetryBetween(log + [e], a, d) && NoForwardWithin(log + [e], a, d)
    {
      PairStays(log, e, a, d);
    }
  }

  /** A pair that was in order stays so, whatever follows it. */
  lemma PairStays(log: Events, e: Event, a: int, d: int)
    requires 0 <= a < d < |log| && log[a].Forwarded? && To(log[d], log[a].sub.id) && OrderOk(log)
    ensures RetryBetween(log + [e], a, d) && NoForwardWithin(log + [e], a, d)
  {
    assert RetryBetween(log, a, d) && NoForwardWithin(log, a, d);
    var b, c :| a < b < c < d
      && log[b] == Harvested(log[a].sub.id, 401) && log[c] == Refreshed(log[a].sub.id, log[d].token);
    assert (log + [e])[b] == log[b] && (log + [e])[c] == log[c];
  }

  lemma NoteKeepsSent(log: Events, e: Event, id: SubId)
    requires !e.Forwarded?
    ensures NoneTo(log, id) ==> NoneTo(log + [e], id)
    ensures SentOnce(log, id) ==> SentOnce(log + [e], id)
    ensures Rejected401(log, id) ==> Rejected401(log + [e], id)
    ensures SentOnce(log, id) && e == Harvested(id, 401) ==> Rejected401(log + [e], id)
  {
    var log' := log + [e];
    if SentOnce(log, id) {
      var a :| SoleAt(log, id, a);
      assert SoleAt(log', id, a);
      assert log'[|log|] == e;
    }
    if Rejected401(log, id) {
      var a, b :| SoleAt(log, id, a) && a < b < |log| && log[b] == Harvested(id, 401);
      assert SoleAt(log', id, a) && log'[b] == Harvested(id, 401);
    }
  }

  lemma AppendFirst(log: Events, e: Event, tried: set<SubId>)
    requires e.Forwarded? && NoneTo(log, e.sub.id) && e.sub.id in tried && OrderOk(log) && SentAreTried(log, tried)
    ensures OrderOk(log + [e]) && SentAreTried(log + [e], tried) && SentOnce(log + [e], e.sub.id)
  {
    var log' := log + [e];
    forall a, d | 0 <= a < d < |log'| && log'[a].Forwarded? && To(log'[d], log'[a].sub.id)
      ensures RetryBetween(log', a, d) && NoForwardWithin(log', a, d)
    {
      assert !To(log[a], e.sub.id);
      PairStays(log, e, a, d);
    }
    assert SoleAt(log', e.sub.id, |log|);
  }

  /** The second forward comes right after the refresh that follows the 401. */
  lemma AppendRetry(log: Events, id: SubId, e: Event, tried: set<SubId>)
    requires To(e, id) && id in tried && Rejected401(log, id) && OrderOk(log) && SentAreTried(log, tried)
    ensures var log' := log + [Refreshed(id, e.token)] + [e]; OrderOk(log') && SentAreTried(log', tried)
  {
    var mid := log + [Refreshed(id, e.token)];
    var log' := mid + [e];
    AppendNote(log, Refreshed(id, e.token), tried);
    var p, b :| SoleAt(log, id, p) && p < b < |log| && log[b] == Harvested(id, 401);
    assert SoleAt(mid, id, p) && mid[|log|] == Refreshed(id, e.token) && mid[b] == log[b];
    forall a, d | 0 <= a < d < |log'| && log'[a].Forwarded? && To(log'[d], log'[a].sub.id)
      ensures RetryBetween(log', a, d) && NoForwardWithin(log', a, d)
    {
      if d < |mid| {
        PairStays(mid, e, a, d);
      } else {
        assert a == p;
        assert log'[b] == Harvested(id, 401) && log'[|log|] == Refreshed(id, e.token);
      }
    }
  }

  // ---------------------------------------------------------------- every await keeps the order

  lemma ReleaseKeeps(l: Local)
    requires OrderOk(l.events) && SentAreTried(l.events, l.tried)
    ensures OrderOk(Release(l).events) && SentAreTried(Release(l).events, l.tried)
  {
    if l.HoldsLease() {
      AppendNote(l.events, Released(l.current.value.id), l.tried);
    }
  }

  lemma LeaseKeeps(l: Local, s: Subscription)
    requires Ordered(l) && s.id !in l.tried
    ensures Ordered(TakeLease(l, s))
  {
    var tried := l.tried + {s.id};
    assert NoneTo(l.events, s.id) && SentAreTried(l.events, tried);
    hide OrderOk, SentAreTried, NoneTo;
    AppendNote(l.events, Leased(s.id), tried);
    AppendNote(l.events + [Leased(s.id)], AskedToken(s), tried);
    NoteKeepsSent(l.events, Leased(s.id), s.id);
    NoteKeepsSent(l.events + [Leased(s.id)], AskedToken(s), s.id);
  }

  lemma FirstKeeps(maxAttempts: nat, l: Local, token: Token)
    requires Ordered(l) && l.pc.AwaitingToken?
    ensures Ordered(Dispatch(maxAttempts, l, token, false))
  {
    hide OrderOk, SentAreTried, NoneTo, SentOnce, Rejected401;
    ReleaseKeeps(l);
    AppendFirst(l.events, Forwarded(l.current.value, l.Provider(), token), l.tried);
  }

  lemma RetryKeepsOrder(maxAttempts: nat, l: Local, token: Token)
    requires Ordered(l) && l.pc.Refreshing?
    ensures Ordered(Dispatch(maxAttempts, Log(l, Refreshed(l.current.value.id, token)), token, true))
  {
    hide OrderOk, SentAreTried, NoneTo, SentOnce, Rejected401;
    var id := l.current.value.id;
    AppendNote(l.events, Refreshed(id, token), l.tried);
    ReleaseKeeps(Log(l, Refreshed(id, token)));
    AppendRetry(l.events, id, Forwarded(l.current.value, l.Provider(), token), l.tried);
  }

  lemma NoteKeeps(l: Local, e: Event, next: Pc)
    requires Ordered(l) && InAttempt(l.pc) && !e.Forwarded?
    requires AttemptOrder(next, l.current.value.id, l.events + [e])
    ensures Ordered(Goto(Log(l, e), next))
  {
    AppendNote(l.events, e, l.tried);
    hide OrderOk, SentAreTried, AttemptOrder;
  }

  lemma ResumeKeepsOrder(maxAttempts: nat, l: Local, a: Answer)
    requires Ordered(l)
    ensures Sane(l) ==> Ordered(Resume(maxAttempts, l, a))
  {
    hide OrderOk, SentAreTried, NoneTo, SentOnce, Rejected401, Forwards, Choose;
    ReleaseKeeps(l);
    if l.pc.Ranking? && a.Gathered? && Choose(l.pc.pool, l.tried, a.info, a.nowMs).Chosen? {
      LeaseKeeps(l, Choose(l.pc.pool, l.tried, a.info, a.nowMs).sub);
    } else if InAttempt(l.pc) {
      InsideKeepsOrder(maxAttempts, l, a);
    }
  }

  lemma InsideKeepsOrder(maxAttempts: nat, l: Local, a: Answer)
    requires Ordered(l) && InAttempt(l.pc)
    ensures Ordered(Resume(maxAttempts, l, a))
  {
    hide OrderOk, SentAreTried, NoneTo, SentOnce, Rejected401, Forwards;
    ReleaseKeeps(l);
    var id := l.current.value.id;
    match l.pc {
      case AwaitingToken => if a.TokenIs? { FirstKeeps(maxAttempts, l, a.token); }
      case Refreshing => if a.TokenIs? { RetryKeepsOrder(maxAttempts, l, a.token); }
      case Forwarding(retried) =>
        if a.Response? {
          NoteKeepsSent(l.events, Harvested(id, a.status), id);
          NoteKeeps(l, Harvested(id, a.status), Harvesting(retried, a.status));
        }
      case Harvesting(retried, status) =>
        var e := Cancelled(if Forwards(l.events) == [] then 0 else |Forwards(l.events)| - 1);
        NoteKeepsSent(l.events, e, id);
        if a.Done? && status == 401 && !retried {
          NoteKeeps(l, e, Discarding401);
        } else {
          NoteKeeps(l, e, Discarding);
        }
      case Discarding401 =>
        NoteKeepsSent(l.events, AskedRefresh(l.current.value), id);
        NoteKeeps(l, AskedRefresh(l.current.value), Refreshing);
      case _ =>
    }
  }

  lemma {:induction false} EveryLogOrdered(maxAttempts: nat, input: Input, answers: seq<Answer>)
    ensures Ordered(Run(maxAttempts, Start(maxAttempts, input), answers))
  {
    if answers != [] {
      EveryLogOrdered(maxAttempts, input, answers[..|answers| - 1]);
      ResumeKeepsOrder(maxAttempts, Run(maxAttempts, Start(maxAttempts, input), answers[..|answers| - 1]), answers[|answers| - 1]);
    }
  }

  /** Whatever the answers, and wherever the call is: if the log has two forwards to one subscription,
      at positions a and d, then in between, in this order, the first was answered 401 and a refresh
      gave the token the second carries, nothing else was forwarded in between, and no other forward
      in the whole log goes to that subscription. */
  lemma AtMostTwoForwards(maxAttempts: nat, input: Input, answers: seq<Answer>, a: nat, d: nat)
    ensures var log := Run(maxAttempts, Start(maxAttempts, input), answers).events;
            a < d < |log| && log[a].Forwarded? && To(log[d], log[a].sub.id) ==>
              && RetryBetween(log, a, d) && NoForwardWithin(log, a, d)
              && forall e :: 0 <= e < |log| && e != a && e != d ==> !To(log[e], log[a].sub.id)
  {
    EveryLogOrdered(maxAttempts, input, answers);
    var log := Run(maxAttempts, Start(maxAttempts, input), answers).events;
    hide Run;
    if a < d < |log| && log[a].Forwarded? && To(log[d], log[a].sub.id) {
      forall e | 0 <= e < |log| && e != a && e != d ensures !To(log[e], log[a].sub.id) {
        if To(log[e], log[a].sub.id) {
          NoThird(log, a, d, e);
          assert false;
        }
      }
    }
  }

  lemma NoThird(log: Events, a: nat, d: nat, e: nat)
    requires OrderOk(log) && a < d < |log| && e < |log| && log[a].Forwarded?
    requires To(log[d], log[a].sub.id) && To(log[e], log[a].sub.id)
    ensures e == a || e == d
  {
    hide RetryBetween;
    if e < a {
      assert false;
    } else if a < e < d {
      assert false;
    } else if e > d {
      assert false;
    }
  }

  // ---------------------------------------------------------------- bounded work

  /** When repeats are neighbours, there are at most two forwards per subscription. */
  lemma {:induction false} TwoPerSubscription(fs: seq<Forward>, ids: set<SubId>)
    requires forall i :: 0 <= i < |fs| ==> fs[i].sub.id in ids
    requires forall i, j :: 0 <= i < j < |fs| && fs[i].sub.id == fs[j].sub.id ==> j == i + 1
    ensures |fs| <= 2 * |ids|
  {
    if fs != [] {
      var id := fs[0].sub.id;
      var rest := fs[if |fs| > 1 && fs[1].sub.id == id then 2 else 1..];
      TwoPerSubscription(rest, ids - {id});
    }
  }

  lemma {:induction false} NoMoreThanListed(ids: set<SubId>, list: seq<SubId>)
    requires forall id :: id in ids ==> id in list
    ensures |ids| <= |list|
  {
    if list != [] {
      var last := list[|list| - 1];
      NoMoreThanListed(ids - {last}, list[..|list| - 1]);
    } else {
      assert ids == {};
    }
  }

  /** Bounded work: whatever the answers, a request makes at most two forwards per allowed attempt. */
  lemma WorkIsBounded(maxAttempts: nat, input: Input, answers: seq<Answer>)
    ensures |Forwards(Run(maxAttempts, Start(maxAttempts, input), answers).events)| <= 2 * maxAttempts
  {
    EveryTraceOk(maxAttempts, input, answers);
    var l := Run(maxAttempts, Start(maxAttempts, input), answers);
    var v := ViewOf(l.events);
    assert RepeatsAreRetries(v.forwards, v.harvests, v.refreshes) && ForwardsOk(l.tried, l.Provider(), v.forwards, v.refreshes);
    assert LeasesOk(maxAttempts, l.pc, l.attempt, l.tried, Held(l), v.leases, v.releases);
    hide Run, Forwards, TraceOk;
    forall i, j | 0 <= i < j < |v.forwards| && v.forwards[i].sub.id == v.forwards[j].sub.id ensures j == i + 1 {
      assert IsRetry(v.forwards, v.harvests, v.refreshes, i, j);
    }
    TwoPerSubscription(v.forwards, l.tried);
    NoMoreThanListed(l.tried, v.leases);
  }
}
