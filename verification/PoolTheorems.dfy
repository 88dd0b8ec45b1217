/** The invariant holds in every state of every schedule, and what follows from it. */
module PoolTheorems {
  import opened Domain
  import opened InFlight
  import opened SelectSubscription
  import opened SubscriptionTable
  import opened HandleMessages
  import opened FailoverTrace
  import opened PoolSystem
  import opened PoolInvariants
  import Tokens

  // ---------------------------------------------------------------- every action keeps the invariant

  lemma InitialOk(cfg: Config, start: int)
    ensures Inv(cfg, Initial(start))
  {
  }

  lemma RequestsStay(cfg: Config, t: Table, t': Table, ts: Tokens.State, ts': Tokens.State, requests: seq<Request>)
    requires RequestsOk(cfg, t, ts, requests) && Steady(t, t') && Grows(ts, ts')
    ensures RequestsOk(cfg, t', ts', requests)
  {
    forall r | 0 <= r < |requests| ensures RequestOk(t', ts', requests[r]) {
      RequestIsSteady(t, t', ts, ts', requests[r]);
    }
  }

  lemma SnapshotsStay(t: Table, t': Table, snapshots: seq<Subscription>)
    requires SnapshotsOk(t, snapshots) && Steady(t, t')
    ensures SnapshotsOk(t', snapshots)
  {
  }

  /** Replacing one request moves the live leases exactly as its own lease moved. */
  lemma LeasesFollow(counts: Counts, requests: seq<Request>, r: nat, q: Request)
    requires r < |requests| && LeasesCounted(counts, requests)
    requires Held(requests[r].local) == Held(q.local) || Held(requests[r].local).None? || Held(q.local).None?
    ensures LeasesCounted(Moved(counts, Held(requests[r].local), Held(q.local)), requests[r := q])
  {
    var before, after := Held(requests[r].local), Held(q.local);
    var counts' := Moved(counts, before, after);
    forall id ensures CountOf(counts', id) == LiveLeases(requests[r := q], id) {
      LeasesAfterUpdate(requests, r, q, id);
    }
  }

  /** The tracker's clamp at zero is never needed: a lease that is given back was counted. */
  lemma HeldIsCounted(counts: Counts, requests: seq<Request>, r: nat)
    requires r < |requests| && LeasesCounted(counts, requests) && Held(requests[r].local).Some?
    ensures CountOf(counts, Held(requests[r].local).value) >= 1
  {
    var q := Request(Start(0, Input(false, None)), None);
    LeasesAfterUpdate(requests, r, q, Held(requests[r].local).value);
  }

  lemma NewcomerHoldsNothing(requests: seq<Request>, q: Request, counts: Counts)
    requires LeasesCounted(counts, requests) && Held(q.local).None?
    ensures LeasesCounted(counts, requests + [q])
  {
    assert (requests + [q])[..|requests|] == requests;
  }

  lemma NewcomerOk(cfg: Config, t: Table, ts: Tokens.State, input: Input)
    ensures RequestOk(t, ts, Request(Start(cfg.maxAttempts, input), None))
    ensures TraceOk(cfg.maxAttempts, Start(cfg.maxAttempts, input))
  {
    StartOk(cfg.maxAttempts, input);
    hide TraceOk;
  }

  lemma OneRequestMore(cfg: Config, t: Table, ts: Tokens.State, requests: seq<Request>, q: Request)
    requires RequestsOk(cfg, t, ts, requests) && RequestOk(t, ts, q) && TraceOk(cfg.maxAttempts, q.local)
    ensures RequestsOk(cfg, t, ts, requests + [q])
  {
    hide RequestOk, TraceOk;
  }

  lemma ArriveKeeps(cfg: Config, s: System, input: Input)
    requires Inv(cfg, s)
    ensures Inv(cfg, Next(cfg, s, Arrive(input)))
  {
    var q := Request(Start(cfg.maxAttempts, input), None);
    assert Held(q.local).None?;
    hide TraceOk, RequestOk, TableOk, TokensOk, LeasesCounted, SnapshotsOk, RequestsOk, Start, Held;
    NewcomerOk(cfg, s.table, s.tokens, input);
    OneRequestMore(cfg, s.table, s.tokens, s.requests, q);
    NewcomerHoldsNothing(s.requests, q, s.counts);
  }

  lemma SteadyAlone(t: Table)
    ensures Steady(t, t)
  {
  }

  lemma OneRequestReplaced(cfg: Config, t: Table, ts: Tokens.State, requests: seq<Request>, r: nat, q: Request)
    requires RequestsOk(cfg, t, ts, requests) && r < |requests|
    requires RequestOk(t, ts, q) && TraceOk(cfg.maxAttempts, q.local)
    ensures RequestsOk(cfg, t, ts, requests[r := q])
  {
    hide RequestOk, TraceOk;
  }

  lemma WithRequestKeeps(cfg: Config, s: System, r: nat, l': Local)
    requires Inv(cfg, s) && r < |s.requests|
    requires TraceOk(cfg.maxAttempts, l')
    requires |s.requests[r].local.events| <= |l'.events|
    requires var q := s.requests[r];
             var x := Effects(s.counts, s.tokens, q.wait);
             var x' := PerformAll(cfg, s.nowMs, x, Since(q.local, l'));
             Performed(s.table, cfg, x, q.local, x', l') && RequestOk(s.table, x'.tokens, Request(l', x'.wait))
    ensures Inv(cfg, WithRequest(cfg, s, r, l'))
  {
    var q := s.requests[r];
    var x := Effects(s.counts, s.tokens, q.wait);
    var x' := PerformAll(cfg, s.nowMs, x, Since(q.local, l'));
    var q' := Request(l', x'.wait);
    hide TraceOk, RequestOk, TableOk, TokensOk, SnapshotsOk, LeasesCounted, PerformAll, Moved, Held, Grows, RequestsOk, Steady, WaitOk;
    LeasesFollow(s.counts, s.requests, r, q');
    SteadyAlone(s.table);
    RequestsStay(cfg, s.table, s.table, s.tokens, x'.tokens, s.requests);
    OneRequestReplaced(cfg, s.table, x'.tokens, s.requests, r, q');
  }

  lemma ReplyKeeps(cfg: Config, s: System, r: nat, answer: Answer)
    requires Inv(cfg, s) && Enabled(cfg, s, Reply(r, answer))
    ensures Inv(cfg, Next(cfg, s, Reply(r, answer)))
  {
    var q := s.requests[r];
    assert RequestOk(s.table, s.tokens, q) && TraceOk(cfg.maxAttempts, q.local) && Fits(s, q, answer);
    hide Fits, TraceOk, RequestOk, TableOk, TokensOk, SnapshotsOk, LeasesCounted, PerformAll, RequestsOk, Resume;
    var x := Effects(s.counts, s.tokens, q.wait);
    ResumePerformed(s.table, cfg, s.nowMs, x, q, answer);
    var l' := Resume(cfg.maxAttempts, q.local, answer);
    var x' := PerformAll(cfg, s.nowMs, x, Since(q.local, l'));
    ResumeKeepsRequest(cfg, s, q, answer, x'.tokens, x'.wait);
    ResumeKeeps(cfg.maxAttempts, q.local, answer);
    WithRequestKeeps(cfg, s, r, l');
  }

  lemma ReleasedRequestOk(t: Table, ts: Tokens.State, q: Request)
    requires RequestOk(t, ts, q) && q.local.pc.Returned?
    ensures RequestOk(t, ts, Request(Release(q.local), q.wait))
  {
    hide Forwards, AllOwn, WaitOk;
    ReleaseForwards(q.local);
  }

  /** What a release performs: at most one event, and no wait. */
  lemma ReleaseWaits(cfg: Config, nowMs: int, x: Effects, l: Local)
    ensures PerformAll(cfg, nowMs, x, Since(l, Release(l))).wait == x.wait
    ensures PerformAll(cfg, nowMs, x, Since(l, Release(l))).tokens == x.tokens
  {
    if l.HoldsLease() {
      var e := Released(l.current.value.id);
      assert Since(l, Release(l)) == [e];
      PerformShort(cfg, nowMs, x, e, e);
    } else {
      assert Since(l, Release(l)) == [];
    }
  }

  lemma ReleaseRelayKeeps(cfg: Config, s: System, r: nat)
    requires Inv(cfg, s) && Enabled(cfg, s, ReleaseRelay(r))
    ensures Inv(cfg, Next(cfg, s, ReleaseRelay(r)))
  {
    var q := s.requests[r];
    assert RequestOk(s.table, s.tokens, q) && TraceOk(cfg.maxAttempts, q.local);
    var x := Effects(s.counts, s.tokens, q.wait);
    hide TraceOk, TableOk, TokensOk, LeasesCounted, RequestsOk, SnapshotsOk, PerformAll, Forwards, RequestOk;
    ReleaseOnce(cfg.maxAttempts, q.local);
    ReleasedRequestOk(s.table, s.tokens, q);
    ReleasePerformed(s.table, cfg, s.nowMs, x, q.local, Release(q.local));
    ReleaseWaits(cfg, s.nowMs, x, q.local);
    WithRequestKeeps(cfg, s, r, Release(q.local));
  }

  lemma RefreshEventKeeps(cfg: Config, s: System, run: nat, e: Tokens.Event)
    requires Inv(cfg, s) && Enabled(cfg, s, RefreshEvent(run, e))
    ensures Inv(cfg, Next(cfg, s, RefreshEvent(run, e)))
  {
    var s' := Next(cfg, s, RefreshEvent(run, e));
    RefreshIsSteady(s.table, cfg.providers, s.tokens.runs[run], e);
    RefreshKeepsTokens(s.table, cfg.providers, s.tokens, run, e);
    RequestsStay(cfg, s.table, s'.table, s.tokens, s'.tokens, s.requests);
    SnapshotsStay(s.table, s'.table, s.proberReads);
  }

  lemma ManagementKeeps(cfg: Config, s: System, a: Action)
    requires Inv(cfg, s) && Enabled(cfg, s, a) && (a.AddSubscription? || a.DisableSubscription?)
    ensures Inv(cfg, Next(cfg, s, a))
  {
    var s' := Next(cfg, s, a);
    var op := if a.AddSubscription? then Op.Add(a.id, a.add) else Op.Disable(a.user, a.id);
    ManagementIsSteady(s.table, op);
    ManagementKeepsTokens(s.table, cfg.providers, s.tokens, op);
    RequestsStay(cfg, s.table, s'.table, s.tokens, s'.tokens, s.requests);
    SnapshotsStay(s.table, s'.table, s.proberReads);
  }

  lemma ProberKeeps(cfg: Config, s: System, a: Action)
    requires Inv(cfg, s) && Enabled(cfg, s, a) && (a.ProberReads? || a.ProberAsks?)
    ensures Inv(cfg, Next(cfg, s, a))
  {
    var s' := Next(cfg, s, a);
    if a.ProberAsks? {
      EnsureKeepsTokens(s.table, cfg, s.tokens, s.proberReads[a.read], s.nowMs);
      RequestsStay(cfg, s.table, s.table, s.tokens, s'.tokens, s.requests);
    }
  }

  lemma NextKeeps(cfg: Config, s: System, a: Action)
    requires Inv(cfg, s) && Enabled(cfg, s, a)
    ensures Inv(cfg, Next(cfg, s, a))
  {
    match a {
      case Arrive(input) => ArriveKeeps(cfg, s, input);
      case Reply(r, answer) => ReplyKeeps(cfg, s, r, answer);
      case ReleaseRelay(r) => ReleaseRelayKeeps(cfg, s, r);
      case RefreshEvent(run, e) => RefreshEventKeeps(cfg, s, run, e);
      case AddSubscription(_, _) => ManagementKeeps(cfg, s, a);
      case DisableSubscription(_, _) => ManagementKeeps(cfg, s, a);
      case ProberReads(_) => ProberKeeps(cfg, s, a);
      case ProberAsks(_) => ProberKeeps(cfg, s, a);
      case Tick(_) =>
    }
  }

  lemma {:induction false} EveryStateOk(cfg: Config, states: seq<System>, actions: seq<Action>, i: nat)
    requires IsRun(cfg, states, actions) && i < |states|
    ensures Inv(cfg, states[i])
  {
    if i == 0 {
      var start :| states[0] == Initial(start);
      InitialOk(cfg, start);
    } else {
      EveryStateOk(cfg, states, actions, i - 1);
      assert StepsTo(cfg, states[i - 1], actions[i - 1], states[i - 1 + 1]);
      NextKeeps(cfg, states[i - 1], actions[i - 1]);
    }
  }

  lemma StepOfRun(cfg: Config, states: seq<System>, actions: seq<Action>, k: nat)
    requires IsRun(cfg, states, actions) && 0 < k < |states|
    ensures k - 1 < |actions| && Inv(cfg, states[k - 1])
    ensures Enabled(cfg, states[k - 1], actions[k - 1]) && states[k] == Next(cfg, states[k - 1], actions[k - 1])
  {
    EveryStateOk(cfg, states, actions, k - 1);
    hide Inv, Enabled, Next;
    assert StepsTo(cfg, states[k - 1], actions[k - 1], states[k - 1 + 1]);
  }

  // ---------------------------------------------------------------- leases

  lemma {:induction false} NoLeases(requests: seq<Request>, id: SubId)
    requires forall r :: 0 <= r < |requests| ==> Held(requests[r].local).None?
    ensures LiveLeases(requests, id) == 0
  {
    if requests != [] {
      NoLeases(requests[..|requests| - 1], id);
    }
  }

  /** In every state of every schedule the tracker counts exactly the live leases: attempts under
      way and relays not yet released.  When none is left the tracker is empty. */
  lemma LeasesAreConserved(cfg: Config, states: seq<System>, actions: seq<Action>, i: nat)
    requires IsRun(cfg, states, actions) && i < |states|
    ensures forall id :: CountOf(states[i].counts, id) == LiveLeases(states[i].requests, id)
    ensures (forall r :: 0 <= r < |states[i].requests| ==> Held(states[i].requests[r].local).None?) ==>
              states[i].counts == map[]
  {
    EveryStateOk(cfg, states, actions, i);
    if forall r :: 0 <= r < |states[i].requests| ==> Held(states[i].requests[r].local).None? {
      forall id ensures id !in states[i].counts {
        NoLeases(states[i].requests, id);
      }
    }
  }

  /** Each request gives back every lease but the one it may hold, in the order it took them; it
      holds none once it has ended, and a lease it holds is counted, so giving it back never meets
      the clamp at zero. */
  lemma RequestHoldsAtMostOne(cfg: Config, states: seq<System>, actions: seq<Action>, i: nat, r: nat)
    requires IsRun(cfg, states, actions) && i < |states| && r < |states[i].requests|
    ensures var l := states[i].requests[r].local;
            && Leases(l.events) == Releases(l.events) + (if l.HoldsLease() then [l.current.value.id] else [])
            && (l.pc.Ended? ==> !l.HoldsLease())
            && (l.HoldsLease() ==> CountOf(states[i].counts, l.current.value.id) >= 1)
  {
    EveryStateOk(cfg, states, actions, i);
    var l := states[i].requests[r].local;
    assert TraceOk(cfg.maxAttempts, l);
    if l.HoldsLease() {
      HeldIsCounted(states[i].counts, states[i].requests, r);
    }
  }

  /** The second and every later `release` of a relay changes nothing at all. */
  lemma SecondReleaseIsIdle(cfg: Config, s: System, r: nat)
    requires Enabled(cfg, s, ReleaseRelay(r)) && !s.requests[r].local.HoldsLease()
    ensures Next(cfg, s, ReleaseRelay(r)) == s
  {
    assert Since(s.requests[r].local, Release(s.requests[r].local)) == [];
  }

  // ---------------------------------------------------------------- history

  lemma RequestMovesOn(cfg: Config, s: System, a: Action)
    requires Inv(cfg, s) && Enabled(cfg, s, a) && (a.Reply? || a.ReleaseRelay?)
    ensures Next(cfg, s, a).table == s.table && Grows(s.tokens, Next(cfg, s, a).tokens)
  {
    var q := s.requests[a.request];
    assert RequestOk(s.table, s.tokens, q) && TraceOk(cfg.maxAttempts, q.local);
    hide TraceOk, RequestOk, TableOk, TokensOk, LeasesCounted, RequestsOk, SnapshotsOk, PerformAll, Resume;
    var x := Effects(s.counts, s.tokens, q.wait);
    if a.Reply? {
      ResumePerformed(s.table, cfg, s.nowMs, x, q, a.answer);
    } else {
      ReleaseOnce(cfg.maxAttempts, q.local);
      ReleasePerformed(s.table, cfg, s.nowMs, x, q.local, Release(q.local));
    }
  }

  lemma StepMovesOn(cfg: Config, s: System, a: Action)
    requires Inv(cfg, s) && Enabled(cfg, s, a)
    ensures Steady(s.table, Next(cfg, s, a).table)
    ensures Grows(s.tokens, Next(cfg, s, a).tokens)
  {
    match a {
      case Reply(_, _) => RequestMovesOn(cfg, s, a);
      case ReleaseRelay(_) => RequestMovesOn(cfg, s, a);
      case RefreshEvent(run, e) =>
        RefreshIsSteady(s.table, cfg.providers, s.tokens.runs[run], e);
        RefreshKeepsTokens(s.table, cfg.providers, s.tokens, run, e);
      case AddSubscription(id, add) => ManagementIsSteady(s.table, Op.Add(id, add));
      case DisableSubscription(user, id) => ManagementIsSteady(s.table, Op.Disable(user, id));
      case ProberAsks(k) => EnsureKeepsTokens(s.table, cfg, s.tokens, s.proberReads[k], s.nowMs);
      case _ =>
    }
  }

  lemma MovesCompose(a: System, b: System, c: System)
    requires Steady(a.table, b.table) && Grows(a.tokens, b.tokens)
    requires Steady(b.table, c.table) && Grows(b.tokens, c.tokens)
    ensures Steady(a.table, c.table) && Grows(a.tokens, c.tokens)
  {
  }

  lemma MovesNowhere(s: System)
    ensures Steady(s.table, s.table) && Grows(s.tokens, s.tokens)
  {
  }

  /** Between any two moments of a run: rows stay and keep their provider, pool, owner and account;
      a row that has left `active` never returns; a settled refresh keeps its outcome. */
  lemma {:induction false} HistoryMovesOn(cfg: Config, states: seq<System>, actions: seq<Action>, i: nat, j: nat)
    requires IsRun(cfg, states, actions) && i <= j < |states|
    ensures Steady(states[i].table, states[j].table)
    ensures Grows(states[i].tokens, states[j].tokens)
  {
    hide *;
    if i < j {
      HistoryMovesOn(cfg, states, actions, i, j - 1);
      StepOfRun(cfg, states, actions, j);
      StepMovesOn(cfg, states[j - 1], actions[j - 1]);
      MovesCompose(states[i], states[j - 1], states[j]);
    } else {
      MovesNowhere(states[i]);
    }
  }

  // ---------------------------------------------------------------- single flight

  predicate IsRefused(run: Tokens.Run) {
    (run.phase.Finishing? || run.phase.Settled?) && run.phase.outcome == Tokens.Refused
  }

  /** In every state of every schedule: at most one refresh of a subscription is outstanding and
      the in-flight map has an entry exactly while it is; a refresh about to settle with a token
      finds that very token stored; a refused refresh finds its row out of every pool, unless no
      provider is registered for it. */
  lemma SingleFlightEverywhere(cfg: Config, states: seq<System>, actions: seq<Action>, i: nat, m: nat)
    requires IsRun(cfg, states, actions) && i < |states| && m < |states[i].tokens.runs|
    ensures var s := states[i];
            var run := s.tokens.runs[m];
            && (forall n :: 0 <= n < |s.tokens.runs| && n != m && s.tokens.runs[n].sub.id == run.sub.id ==>
                  s.tokens.runs[n].phase.Settled? || run.phase.Settled?)
            && (!run.phase.Settled? <==> run.sub.id in s.tokens.inflight && s.tokens.inflight[run.sub.id] == m)
            && run.sub.id in s.table
            && (run.phase.Finishing? && run.phase.outcome.Got? ==> s.table[run.sub.id].access == run.phase.outcome.token)
            && (IsRefused(run) && run.sub.provider in cfg.providers ==> s.table[run.sub.id].status != Active)
  {
    EveryStateOk(cfg, states, actions, i);
    var s := states[i];
    assert RunOk(s.table, cfg.providers, s.tokens.runs[m]);
  }

  /** The last clause above cannot be had without its condition: a subscription of an unregistered
      provider is refused, and its row is left as it was. */
  lemma UnregisteredIsRefusedUnmarked(t: Table, s: Tokens.State, sub: Subscription)
    requires sub.id !in s.inflight
    ensures var (s1, run) := Tokens.Join(s, sub, {});
            && Tokens.Enabled(s1, run, Tokens.Finally)
            && IsRefused(Tokens.Step(s1, run, Tokens.Finally).runs[run])
            && Tokens.StepTable(t, s1.runs[run], Tokens.Finally) == t
  {
  }

  /** When a refresh settles with a token, the stored token is that one. */
  lemma SettledTokenIsStored(cfg: Config, states: seq<System>, actions: seq<Action>, i: nat, run: nat)
    requires IsRun(cfg, states, actions) && i < |actions|
    requires actions[i] == RefreshEvent(run, Tokens.Finally)
    ensures var r := states[i + 1].tokens.runs;
            && run < |r| && r[run].phase.Settled?
            && r[run].sub.id !in states[i + 1].tokens.inflight
            && (r[run].phase.outcome.Got? ==>
                  r[run].sub.id in states[i + 1].table
                  && states[i + 1].table[r[run].sub.id].access == r[run].phase.outcome.token)
  {
    EveryStateOk(cfg, states, actions, i);
    assert StepsTo(cfg, states[i], actions[i], states[i + 1]);
    assert RunOk(states[i].table, cfg.providers, states[i].tokens.runs[run]);
  }

  /** Callers that joined the same refresh get the same answer, whenever each of them resumes. */
  lemma JoinersAgree(cfg: Config, states: seq<System>, actions: seq<Action>, i: nat, j: nat, n: nat, a: Answer, b: Answer)
    requires IsRun(cfg, states, actions) && i <= j < |states|
    requires TokenFits(states[i], Some(Tokens.OnRun(n)), a)
    requires TokenFits(states[j], Some(Tokens.OnRun(n)), b)
    ensures a == b
  {
    HistoryMovesOn(cfg, states, actions, i, j);
  }

  // ---------------------------------------------------------------- isolation

  /** Step j answered a listing of request r with a pool that has `s` in it, as stored right then. */
  ghost predicate ListedAt(states: seq<System>, actions: seq<Action>, r: nat, j: int, s: Subscription) {
    && 0 <= j < |actions| && j < |states| && r < |states[j].requests|
    && states[j].requests[r].local.pc.Listing?
    && actions[j].Reply? && actions[j].request == r && actions[j].answer.Pool? && s in actions[j].answer.rows
    && s.id in states[j].table && states[j].table[s.id] == s
  }

  ghost predicate ListedWithin(states: seq<System>, actions: seq<Action>, r: nat, d: nat, k: nat, s: Subscription) {
    exists j :: d <= j < k && ListedAt(states, actions, r, j, s)
  }

  /** The request, not having arrived or being about to list, works on no row. */
  ghost predicate Unengaged(s: System, r: nat) {
    r < |s.requests| ==> !s.requests[r].local.pc.Ranking? && !InAttempt(s.requests[r].local.pc)
  }

  function ForwardsBy(s: System, r: nat): nat {
    if r < |s.requests| then |Forwards(s.requests[r].local.events)| else 0
  }

  /** What the request works on, and what it forwarded for after its first n forwards, it was given by
      a listing answered between states d and k. */
  ghost predicate AllListed(states: seq<System>, actions: seq<Action>, r: nat, d: nat, k: nat, n: nat, l: Local) {
    && n <= |Forwards(l.events)|
    && (l.pc.Ranking? ==> forall s :: s in l.pc.pool ==> ListedWithin(states, actions, r, d, k, s))
    && (InAttempt(l.pc) ==> l.current.Some? && ListedWithin(states, actions, r, d, k, l.current.value))
    && (forall m :: n <= m < |Forwards(l.events)| ==> ListedWithin(states, actions, r, d, k, Forwards(l.events)[m].sub))
  }

  lemma ListedLater(states: seq<System>, actions: seq<Action>, r: nat, d: nat, k: nat, n: nat, l: Local)
    requires AllListed(states, actions, r, d, k, n, l)
    ensures AllListed(states, actions, r, d, k + 1, n, l)
  {
    hide ListedAt, Forwards;
  }

  lemma PoolIsListed(cfg: Config, states: seq<System>, actions: seq<Action>, r: nat, d: nat, k: nat)
    requires d <= k < |states| && k < |actions| && Inv(cfg, states[k]) && Enabled(cfg, states[k], actions[k])
    requires actions[k].Reply? && actions[k].request == r && actions[k].answer.Pool?
    requires states[k].requests[r].local.pc.Listing?
    ensures forall s :: s in actions[k].answer.rows ==> ListedWithin(states, actions, r, d, k + 1, s)
  {
    ListedRows(states[k], states[k].requests[r], actions[k].answer);
    hide Inv, Enabled, Usable;
    forall s | s in actions[k].answer.rows ensures ListedWithin(states, actions, r, d, k + 1, s) {
      assert ListedAt(states, actions, r, k, s);
    }
  }

  lemma GrownForwardsListed(states: seq<System>, actions: seq<Action>, r: nat, d: nat, k: nat, n: nat,
                            l: Local, answer: Answer, f': seq<Forward>)
    requires AllListed(states, actions, r, d, k, n, l) && ForwardsGrow(l, answer, Forwards(l.events), f')
    ensures n <= |f'| && forall m :: n <= m < |f'| ==> ListedWithin(states, actions, r, d, k, f'[m].sub)
  {
    hide Forwards, ListedWithin;
  }

  lemma ReplyListed(cfg: Config, states: seq<System>, actions: seq<Action>, r: nat, d: nat, k: nat, n: nat)
    requires d <= k < |states| && k < |actions| && Inv(cfg, states[k]) && Enabled(cfg, states[k], actions[k])
    requires actions[k].Reply? && actions[k].request == r
    requires AllListed(states, actions, r, d, k, n, states[k].requests[r].local)
    ensures AllListed(states, actions, r, d, k + 1, n, Resume(cfg.maxAttempts, states[k].requests[r].local, actions[k].answer))
  {
    var l := states[k].requests[r].local;
    var answer := actions[k].answer;
    ResumePlace(cfg.maxAttempts, l, answer);
    ResumeForwards(cfg.maxAttempts, l, answer);
    ListedLater(states, actions, r, d, k, n, l);
    if l.pc.Listing? && answer.Pool? {
      PoolIsListed(cfg, states, actions, r, d, k);
    }
    hide Resume, Inv, Enabled, Forwards, ListedWithin, ForwardsGrow;
    GrownForwardsListed(states, actions, r, d, k + 1, n, l, answer, Forwards(Resume(cfg.maxAttempts, l, answer).events));
  }

  /** One step, seen from one request: it makes its own move, or stays as it is. */
  lemma OthersStay(cfg: Config, s: System, a: Action, r: nat)
    requires Enabled(cfg, s, a) && r < |s.requests|
    ensures var s' := Next(cfg, s, a);
            && r < |s'.requests|
            && s'.requests[r].local ==
                 if a == Reply(r, if a.Reply? then a.answer else Done) then Resume(cfg.maxAttempts, s.requests[r].local, a.answer)
                 else if a == ReleaseRelay(r) then Release(s.requests[r].local)
                 else s.requests[r].local
  {
    hide Resume, Release, PerformAll, Fits, Apply;
  }

  lemma ReleaseListed(states: seq<System>, actions: seq<Action>, r: nat, d: nat, k: nat, n: nat, l: Local)
    requires AllListed(states, actions, r, d, k, n, l)
    ensures AllListed(states, actions, r, d, k, n, Release(l))
  {
    ReleaseForwards(l);
    hide Forwards, ListedWithin;
  }

  lemma NewcomerListed(cfg: Config, states: seq<System>, actions: seq<Action>, r: nat, d: nat, k: nat, s: System, a: Action)
    requires Enabled(cfg, s, a) && |s.requests| <= r < |Next(cfg, s, a).requests|
    ensures AllListed(states, actions, r, d, k, 0, Next(cfg, s, a).requests[r].local)
  {
    hide Resume, Release, PerformAll, Fits, Apply, ListedWithin;
  }

  lemma UnengagedListed(states: seq<System>, actions: seq<Action>, r: nat, d: nat)
    requires d < |states| && r < |states[d].requests| && Unengaged(states[d], r)
    ensures AllListed(states, actions, r, d, d, ForwardsBy(states[d], r), states[d].requests[r].local)
  {
    hide Forwards, ListedWithin;
  }

  lemma RequestsOnlyArrive(cfg: Config, s: System, a: Action)
    requires Enabled(cfg, s, a)
    ensures |s.requests| <= |Next(cfg, s, a).requests|
  {
    hide Resume, Release, PerformAll, Fits, Apply;
  }

  lemma {:induction false} RequestsStayThere(cfg: Config, states: seq<System>, actions: seq<Action>, i: nat, j: nat)
    requires IsRun(cfg, states, actions) && i <= j < |states|
    ensures |states[i].requests| <= |states[j].requests|
  {
    hide *;
    if i < j {
      RequestsStayThere(cfg, states, actions, i, j - 1);
      StepOfRun(cfg, states, actions, j);
      RequestsOnlyArrive(cfg, states[j - 1], actions[j - 1]);
    }
  }

  lemma NotThereYet(s: System, r: nat)
    requires |s.requests| <= r
    ensures ForwardsBy(s, r) == 0
  {
  }

  /** In every run, from any state d in which request r works on no row: whatever it works on or
      forwards for later was given to it by a listing answered after that, and was stored as such at
      that moment. */
  lemma {:induction false} EverySnapshotListed(cfg: Config, states: seq<System>, actions: seq<Action>, r: nat, d: nat, k: nat)
    requires IsRun(cfg, states, actions) && d <= k < |states| && Unengaged(states[d], r) && r < |states[k].requests|
    ensures AllListed(states, actions, r, d, k, ForwardsBy(states[d], r), states[k].requests[r].local)
  {
    hide *;
    var n := ForwardsBy(states[d], r);
    if k == d {
      UnengagedListed(states, actions, r, d);
    } else {
      StepOfRun(cfg, states, actions, k);
      var s, a := states[k - 1], actions[k - 1];
      if r < |s.requests| {
        EverySnapshotListed(cfg, states, actions, r, d, k - 1);
        OthersStay(cfg, s, a, r);
        if a.Reply? && a.request == r {
          ReplyListed(cfg, states, actions, r, d, k - 1, n);
        } else {
          if a == ReleaseRelay(r) {
            ReleaseListed(states, actions, r, d, k - 1, n, s.requests[r].local);
          }
          ListedLater(states, actions, r, d, k - 1, n, states[k].requests[r].local);
        }
      } else {
        RequestsStayThere(cfg, states, actions, d, k - 1);
        NotThereYet(states[d], r);
        NewcomerListed(cfg, states, actions, r, d, k, s, a);
      }
    }
  }

  lemma NobodyAtFirst(cfg: Config, states: seq<System>, actions: seq<Action>, r: nat)
    requires IsRun(cfg, states, actions)
    ensures Unengaged(states[0], r) && ForwardsBy(states[0], r) == 0
  {
  }

  /** A listing gives a principal all of its pool and nothing else: exactly the active rows of the
      provider that are the principal's own, or the donors', as its key says. */
  lemma ListingIsThePool(s: System, r: nat, answer: Answer, row: Subscription)
    requires r < |s.requests| && s.requests[r].local.pc.Listing? && Fits(s, s.requests[r], answer) && answer.Pool?
    ensures var l := s.requests[r].local;
            && l.principal.Some?
            && (row in answer.rows <==>
                  && row.id in s.table && s.table[row.id] == row
                  && row.status == Active
                  && row.provider == ProviderForModel(l.input.model)
                  && (l.principal.value.target == Own ==> row.pool == UserPool && row.owner == Some(l.principal.value.user))
                  && (l.principal.value.target == Donor ==> row.pool == DonorPool))
  {
    hide ProviderForModel;
  }

  /** Isolation: in every state of every schedule, each request sent upstream went to the base of
      its model's provider, for a subscription that this request's own listing had found: at the
      moment that listing was answered the row was stored as it is in the forward, active, of that
      provider and in the principal's own or donor pool.  It still belongs there; and the forward
      carried a token of that subscription's account, whoever's refresh produced the token. */
  lemma ForwardsAreIsolated(cfg: Config, states: seq<System>, actions: seq<Action>, i: nat, r: nat, f: Forward)
    requires IsRun(cfg, states, actions) && i < |states| && r < |states[i].requests|
    requires f in Forwards(states[i].requests[r].local.events)
    ensures var l := states[i].requests[r].local;
            var p := l.principal;
            && p.Some?
            && f.base == (if NamesOpenAi(l.input.model) then OpenAi else Anthropic)
            && ListedWithin(states, actions, r, 0, i, f.sub) && f.sub.status == Active
            && Belongs(p.value, f.base, f.sub)
            && f.sub.id in states[i].table && Belongs(p.value, f.base, states[i].table[f.sub.id])
            && f.token.account == states[i].table[f.sub.id].access.account
  {
    EveryStateOk(cfg, states, actions, i);
    NobodyAtFirst(cfg, states, actions, r);
    EverySnapshotListed(cfg, states, actions, r, 0, i);
    var l := states[i].requests[r].local;
    assert RequestOk(states[i].table, states[i].tokens, states[i].requests[r]);
    RoutesByName(l.input.model);
    hide IsRun, Unengaged, ForwardsBy, ListedWithin, Forwards, NamesOpenAi, ProviderForModel;
    assert OwnForward(states[i].table, l.principal.value, l.Provider(), f);
  }

  /** A listed row was active at every earlier state of the run that had it. */
  lemma ListedWasActive(cfg: Config, states: seq<System>, actions: seq<Action>, r: nat, d: nat, i: nat, s: Subscription)
    requires IsRun(cfg, states, actions) && d <= i < |states|
    requires ListedWithin(states, actions, r, d, i, s) && s.status == Active
    ensures s.id in states[d].table ==> states[d].table[s.id].status == Active
  {
    var j :| d <= j < i && ListedAt(states, actions, r, j, s);
    HistoryMovesOn(cfg, states, actions, d, j);
    hide IsRun;
  }

  lemma WorksOnActive(cfg: Config, s: System, r: nat)
    requires Inv(cfg, s) && r < |s.requests|
    ensures var l := s.requests[r].local;
            && (InAttempt(l.pc) ==> l.current.Some? && l.current.value.status == Active)
            && (forall m :: 0 <= m < |Forwards(l.events)| ==> Forwards(l.events)[m].sub.status == Active)
  {
    var l := s.requests[r].local;
    assert RequestOk(s.table, s.tokens, s.requests[r]);
    hide Forwards, TraceOk;
    forall m | 0 <= m < |Forwards(l.events)| ensures Forwards(l.events)[m].sub.status == Active {
      assert OwnForward(s.table, l.principal.value, l.Provider(), Forwards(l.events)[m]);
    }
  }

  /** Once a row has left `active`, nothing that reads afterwards uses it: take any state d of any
      run, and any request that has not arrived by then or is not working on a row.  No subscription
      it selects from then on, and none it forwards for from then on, is one that state d stored as
      anything but active. */
  lemma InactiveIsNeverUsed(cfg: Config, states: seq<System>, actions: seq<Action>, r: nat, d: nat, i: nat)
    requires IsRun(cfg, states, actions) && d <= i < |states| && Unengaged(states[d], r) && r < |states[i].requests|
    ensures var l := states[i].requests[r].local;
            var t := states[d].table;
            && (InAttempt(l.pc) ==>
                  l.current.Some? && (l.current.value.id in t ==> t[l.current.value.id].status == Active))
            && (forall m :: ForwardsBy(states[d], r) <= m < |Forwards(l.events)| ==>
                  var id := Forwards(l.events)[m].sub.id; id in t ==> t[id].status == Active)
  {
    EveryStateOk(cfg, states, actions, i);
    EverySnapshotListed(cfg, states, actions, r, d, i);
    WorksOnActive(cfg, states[i], r);
    hide IsRun, Inv, Unengaged, ForwardsBy, ListedWithin, Forwards;
    var l := states[i].requests[r].local;
    if InAttempt(l.pc) {
      ListedWasActive(cfg, states, actions, r, d, i, l.current.value);
    }
    forall m | ForwardsBy(states[d], r) <= m < |Forwards(l.events)|
      ensures var id := Forwards(l.events)[m].sub.id; id in states[d].table ==> states[d].table[id].status == Active
    {
      ListedWasActive(cfg, states, actions, r, d, i, Forwards(l.events)[m].sub);
    }
  }
}
