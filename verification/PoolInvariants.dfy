/** What every reachable state of the pool keeps: leases, isolation, single flight. */
module PoolInvariants {
  import opened Domain
  import opened InFlight
  import opened SelectSubscription
  import opened SubscriptionTable
  import opened HandleMessages
  import opened FailoverTrace
  import opened PoolSystem
  import Tokens

  // ---------------------------------------------------------------- the table

  ghost predicate TableOk(t: Table) {
    WellFormed(t) && forall id :: id in t ==> t[id].access.account == t[id].refresh.account
  }

  /** What may happen to a table: rows stay, keep their identity and their account, and never
      become active again. */
  ghost predicate Steady(t: Table, t': Table) {
    Evolves(t, t') && forall id :: id in t ==> t'[id].access.account == t[id].access.account
  }

  /** A snapshot of a row that is still in the table. */
  ghost predicate Known(t: Table, s: Subscription) {
    && s.id in t && SameIdentity(s, t[s.id])
    && s.access.account == s.refresh.account == t[s.id].access.account
  }

  // ---------------------------------------------------------------- the refreshes

  ghost predicate RunOk(t: Table, providers: set<ProviderId>, r: Tokens.Run) {
    && Known(t, r.sub)
    && match r.phase
       case Storing(grant) => GrantOf(r.sub.refresh.account, grant)
       case Finishing(Got(token)) => token.account == r.sub.access.account && t[r.sub.id].access == token
       case Finishing(Refused) => Fenced(t, providers, r.sub)
       case Settled(Got(token)) => token.account == r.sub.access.account
       case Settled(Refused) => Fenced(t, providers, r.sub)
       case _ => true
  }

  /** Out of every pool; a subscription of an unregistered provider is refused without that. */
  ghost predicate Fenced(t: Table, providers: set<ProviderId>, s: Subscription) {
    s.provider in providers ==> s.id in t && t[s.id].status != Active
  }

  ghost predicate TokensOk(t: Table, providers: set<ProviderId>, ts: Tokens.State) {
    Tokens.SingleFlight(ts) && forall n :: 0 <= n < |ts.runs| ==> RunOk(t, providers, ts.runs[n])
  }

  /** Refreshes are only added, and a settled one keeps its outcome. */
  ghost predicate Grows(ts: Tokens.State, ts': Tokens.State) {
    && |ts.runs| <= |ts'.runs|
    && forall n :: 0 <= n < |ts.runs| ==>
         ts'.runs[n].sub == ts.runs[n].sub && (ts.runs[n].phase.Settled? ==> ts'.runs[n] == ts.runs[n])
  }

  // ---------------------------------------------------------------- one request

  /** The forwards of a request whose principal is known went to that principal's pool and the
      provider of the model, under the account of the subscription they name. */
  ghost predicate OwnForward(t: Table, p: Principal, provider: ProviderId, f: Forward) {
    && Known(t, f.sub) && Listed(p, provider, f.sub)
    && f.base == provider
    && f.token.account == f.sub.access.account
  }

  ghost predicate WaitOk(ts: Tokens.State, wait: Option<Tokens.Wait>, s: Subscription) {
    match wait
    case Some(Ready(token)) => token.account == s.access.account
    case Some(OnRun(n)) => n < |ts.runs| && ts.runs[n].sub.id == s.id
    case None => false
  }

  ghost predicate AllOwn(t: Table, p: Option<Principal>, provider: ProviderId, fs: seq<Forward>) {
    && (p.None? ==> fs == [])
    && forall i :: 0 <= i < |fs| ==> OwnForward(t, p.value, provider, fs[i])
  }

  /** A row that the request's principal may use. */
  ghost predicate Usable(t: Table, l: Local, s: Subscription) {
    l.principal.Some? && Known(t, s) && Listed(l.principal.value, l.Provider(), s)
  }

  ghost predicate PlaceOk(t: Table, l: Local) {
    && (l.pc.Authenticating? ==> l.principal.None?)
    && (l.pc.Listing? ==> l.principal.Some?)
    && (l.pc.Ranking? ==> l.principal.Some? && forall s :: s in l.pc.pool ==> Usable(t, l, s))
    && (InAttempt(l.pc) ==> l.current.Some? && Usable(t, l, l.current.value))
  }

  ghost predicate RequestOk(t: Table, ts: Tokens.State, q: Request) {
    && Sane(q.local)
    && AllOwn(t, q.local.principal, q.local.Provider(), Forwards(q.local.events))
    && PlaceOk(t, q.local)
    && (WantsToken(q.local.pc) ==> WaitOk(ts, q.wait, q.local.current.value))
  }

  lemma RequestIsSteady(t: Table, t': Table, ts: Tokens.State, ts': Tokens.State, q: Request)
    requires RequestOk(t, ts, q) && Steady(t, t') && Grows(ts, ts')
    ensures RequestOk(t', ts', q)
  {
  }

  // ---------------------------------------------------------------- the leases

  /** How many requests hold a lease on a subscription. */
  function LiveLeases(requests: seq<Request>, id: SubId): nat {
    if requests == [] then 0
    else LiveLeases(requests[..|requests| - 1], id) + (if Held(requests[|requests| - 1].local) == Some(id) then 1 else 0)
  }

  lemma {:induction false} LeasesAfterUpdate(requests: seq<Request>, r: nat, q: Request, id: SubId)
    requires r < |requests|
    ensures LiveLeases(requests[r := q], id) ==
            LiveLeases(requests, id)
            - (if Held(requests[r].local) == Some(id) then 1 else 0)
            + (if Held(q.local) == Some(id) then 1 else 0)
  {
    var n := |requests| - 1;
    if r < n {
      assert requests[r := q][..n] == requests[..n][r := q];
      LeasesAfterUpdate(requests[..n], r, q, id);
    } else {
      assert requests[r := q][..n] == requests[..n];
    }
  }

  ghost predicate LeasesCounted(counts: Counts, requests: seq<Request>) {
    Tidy(counts) && forall id :: CountOf(counts, id) == LiveLeases(requests, id)
  }

  // ---------------------------------------------------------------- the invariant

  ghost predicate RequestsOk(cfg: Config, t: Table, ts: Tokens.State, requests: seq<Request>) {
    forall r :: 0 <= r < |requests| ==> RequestOk(t, ts, requests[r]) && TraceOk(cfg.maxAttempts, requests[r].local)
  }

  ghost predicate SnapshotsOk(t: Table, snapshots: seq<Subscription>) {
    forall k :: 0 <= k < |snapshots| ==> Known(t, snapshots[k])
  }

  ghost predicate Inv(cfg: Config, s: System) {
    && TableOk(s.table)
    && TokensOk(s.table, cfg.providers, s.tokens)
    && LeasesCounted(s.counts, s.requests)
    && RequestsOk(cfg, s.table, s.tokens, s.requests)
    && SnapshotsOk(s.table, s.proberReads)
  }

  // ---------------------------------------------------------------- tables and refreshes move on

  lemma ManagementIsSteady(t: Table, op: Op)
    requires TableOk(t) && (op.Add? || op.Disable?)
    requires op.Add? ==> GrantOf(op.input.grant.access.account, op.input.grant)
    ensures TableOk(Apply(t, op)) && Steady(t, Apply(t, op))
  {
  }

  lemma RefreshIsSteady(t: Table, providers: set<ProviderId>, r: Tokens.Run, e: Tokens.Event)
    requires TableOk(t) && RunOk(t, providers, r)
    ensures TableOk(Tokens.StepTable(t, r, e)) && Steady(t, Tokens.StepTable(t, r, e))
  {
  }

  lemma RunSurvives(t: Table, t': Table, providers: set<ProviderId>, r: Tokens.Run)
    requires RunOk(t, providers, r) && Steady(t, t')
    requires r.phase.Finishing? ==> t'[r.sub.id].access == t[r.sub.id].access
    ensures RunOk(t', providers, r)
  {
  }

  lemma ManagementKeepsTokens(t: Table, providers: set<ProviderId>, ts: Tokens.State, op: Op)
    requires TableOk(t) && TokensOk(t, providers, ts) && (op.Add? || op.Disable?)
    requires op.Add? ==> GrantOf(op.input.grant.access.account, op.input.grant)
    ensures TokensOk(Apply(t, op), providers, ts)
  {
    ManagementIsSteady(t, op);
    forall n | 0 <= n < |ts.runs| ensures RunOk(Apply(t, op), providers, ts.runs[n]) {
      RunSurvives(t, Apply(t, op), providers, ts.runs[n]);
    }
  }

  /** The refresh that took the step. */
  lemma SteppedRunOk(t: Table, providers: set<ProviderId>, r: Tokens.Run, e: Tokens.Event)
    requires TableOk(t) && RunOk(t, providers, r)
    requires e.Granted? ==> GrantOf(r.sub.refresh.account, e.grant)
    ensures RunOk(Tokens.StepTable(t, r, e), providers, r.(phase := Tokens.NextPhase(r.phase, e)))
  {
    RefreshIsSteady(t, providers, r, e);
    hide TableOk;
  }

  /** Any other refresh; one of the same subscription has settled before. */
  lemma OtherRunOk(t: Table, providers: set<ProviderId>, r: Tokens.Run, e: Tokens.Event, other: Tokens.Run)
    requires TableOk(t) && RunOk(t, providers, r) && RunOk(t, providers, other)
    requires other.sub.id == r.sub.id ==> other.phase.Settled?
    ensures RunOk(Tokens.StepTable(t, r, e), providers, other)
  {
    RefreshIsSteady(t, providers, r, e);
    hide TableOk, Steady, GrantOf;
    RunSurvives(t, Tokens.StepTable(t, r, e), providers, other);
  }

  lemma StepGrows(ts: Tokens.State, run: nat, e: Tokens.Event)
    requires Tokens.Enabled(ts, run, e)
    ensures Grows(ts, Tokens.Step(ts, run, e))
  {
  }

  lemma RefreshKeepsTokens(t: Table, providers: set<ProviderId>, ts: Tokens.State, run: nat, e: Tokens.Event)
    requires TableOk(t) && TokensOk(t, providers, ts) && Tokens.Enabled(ts, run, e)
    requires e.Granted? ==> GrantOf(ts.runs[run].sub.refresh.account, e.grant)
    ensures TokensOk(Tokens.StepTable(t, ts.runs[run], e), providers, Tokens.Step(ts, run, e))
    ensures Grows(ts, Tokens.Step(ts, run, e))
  {
    var ts' := Tokens.Step(ts, run, e);
    Tokens.StepKeepsSingleFlight(ts, run, e);
    StepGrows(ts, run, e);
    SteppedRunOk(t, providers, ts.runs[run], e);
    hide TableOk, RunOk, GrantOf, Tokens.StepTable, Tokens.NextPhase, Tokens.SingleFlight, Grows;
    assert !ts.runs[run].phase.Settled?;
    forall n | 0 <= n < |ts'.runs| && n != run ensures RunOk(Tokens.StepTable(t, ts.runs[run], e), providers, ts'.runs[n]) {
      if !ts.runs[n].phase.Settled? && ts.runs[n].sub.id == ts.runs[run].sub.id {
        Tokens.AtMostOneOutstanding(ts, n, run);
      }
      OtherRunOk(t, providers, ts.runs[run], e, ts.runs[n]);
    }
  }

  lemma JoinKeepsTokens(t: Table, providers: set<ProviderId>, ts: Tokens.State, sub: Subscription)
    requires TokensOk(t, providers, ts) && Known(t, sub)
    ensures var (ts', run) := Tokens.Join(ts, sub, providers);
            TokensOk(t, providers, ts') && Grows(ts, ts') && WaitOk(ts', Some(Tokens.OnRun(run)), sub)
  {
    Tokens.JoinKeepsSingleFlight(ts, sub, providers);
  }

  lemma EnsureKeepsTokens(t: Table, cfg: Config, ts: Tokens.State, sub: Subscription, nowMs: int)
    requires TokensOk(t, cfg.providers, ts) && Known(t, sub)
    ensures var (ts', wait) := Tokens.Ensure(ts, sub, nowMs, cfg.skewMs, cfg.providers);
            TokensOk(t, cfg.providers, ts') && Grows(ts, ts') && WaitOk(ts', Some(wait), sub)
  {
    JoinKeepsTokens(t, cfg.providers, ts, sub);
  }

  // ---------------------------------------------------------------- one await of one request

  lemma PerformShort(cfg: Config, nowMs: int, x: Effects, e: Event, f: Event)
    ensures PerformAll(cfg, nowMs, x, []) == x
    ensures PerformAll(cfg, nowMs, x, [e]) == Perform(cfg, nowMs, x, e)
    ensures PerformAll(cfg, nowMs, x, [e, f]) == Perform(cfg, nowMs, Perform(cfg, nowMs, x, e), f)
  {
    var y := Perform(cfg, nowMs, x, e);
    assert [e, f][1..] == [f] && [f][1..] == [] && [e][1..] == [];
    assert PerformAll(cfg, nowMs, y, [f]) == PerformAll(cfg, nowMs, Perform(cfg, nowMs, y, f), []);
  }

  /** The counts after a request's lease went from `before` to `after`. */
  function Moved(counts: Counts, before: Option<SubId>, after: Option<SubId>): Counts {
    if before == after then counts
    else if before.Some? then Dec(counts, before.value)
    else Inc(counts, after.value)
  }

  ghost predicate Performed(t: Table, cfg: Config, x: Effects, l: Local, x': Effects, l': Local) {
    && x'.counts == Moved(x.counts, Held(l), Held(l'))
    && (Held(l) == Held(l') || Held(l).None? || Held(l').None?)
    && TokensOk(t, cfg.providers, x'.tokens) && Grows(x.tokens, x'.tokens)
    && (l'.pc.AwaitingToken? || l'.pc.Refreshing? ==> l'.current.Some? && WaitOk(x'.tokens, x'.wait, l'.current.value))
  }

  lemma ReleasePerformed(t: Table, cfg: Config, nowMs: int, x: Effects, l: Local, l': Local)
    requires TokensOk(t, cfg.providers, x.tokens)
    requires l'.events == Release(l).events && !l'.HoldsLease() && !WantsToken(l'.pc)
    ensures |l.events| <= |l'.events|
    ensures Performed(t, cfg, x, l, PerformAll(cfg, nowMs, x, Since(l, l')), l')
  {
    if l.HoldsLease() {
      var e := Released(l.current.value.id);
      assert Since(l, l') == [e];
      PerformShort(cfg, nowMs, x, e, e);
    } else {
      assert Since(l, l') == [];
    }
  }

  lemma QuietPerformed(t: Table, cfg: Config, nowMs: int, x: Effects, l: Local, l': Local)
    requires TokensOk(t, cfg.providers, x.tokens)
    requires l'.events == l.events && Held(l') == Held(l) && !WantsToken(l'.pc)
    ensures Performed(t, cfg, x, l, PerformAll(cfg, nowMs, x, Since(l, l')), l')
  {
    assert Since(l, l') == [];
  }

  lemma TakeLeasePerformed(t: Table, cfg: Config, nowMs: int, x: Effects, l: Local, s: Subscription)
    requires TokensOk(t, cfg.providers, x.tokens) && Known(t, s) && !l.HoldsLease()
    ensures Performed(t, cfg, x, l, PerformAll(cfg, nowMs, x, Since(l, TakeLease(l, s))), TakeLease(l, s))
  {
    var l' := TakeLease(l, s);
    assert Since(l, l') == [Leased(s.id), AskedToken(s)];
    PerformShort(cfg, nowMs, x, Leased(s.id), AskedToken(s));
    EnsureKeepsTokens(t, cfg, x.tokens, s, nowMs);
  }

  lemma AskRefreshPerformed(t: Table, cfg: Config, nowMs: int, x: Effects, l: Local)
    requires TokensOk(t, cfg.providers, x.tokens) && l.current.Some? && Known(t, l.current.value)
    ensures var l' := Goto(Log(l, AskedRefresh(l.current.value)), Refreshing);
            Performed(t, cfg, x, l, PerformAll(cfg, nowMs, x, Since(l, l')), l')
  {
    var e := AskedRefresh(l.current.value);
    assert Since(l, Goto(Log(l, e), Refreshing)) == [e];
    PerformShort(cfg, nowMs, x, e, e);
    JoinKeepsTokens(t, cfg.providers, x.tokens, l.current.value);
  }

  /** Events that touch neither the tracker nor the token manager. */
  predicate IsNote(e: Event) {
    e.Refreshed? || e.Forwarded? || e.Harvested? || e.Cancelled?
  }

  lemma NotePerformed(t: Table, cfg: Config, nowMs: int, x: Effects, l: Local, e: Event, next: Pc)
    requires TokensOk(t, cfg.providers, x.tokens) && IsNote(e)
    requires !next.AwaitingToken? && !next.Refreshing?
    ensures var l' := Goto(Log(l, e), next);
            Performed(t, cfg, x, l, PerformAll(cfg, nowMs, x, Since(l, l')), l')
  {
    assert Since(l, Goto(Log(l, e), next)) == [e];
    PerformShort(cfg, nowMs, x, e, e);
  }

  lemma DispatchPerformed(t: Table, cfg: Config, nowMs: int, x: Effects, l: Local, token: Token, retried: bool)
    requires TokensOk(t, cfg.providers, x.tokens) && l.current.Some?
    ensures var l' := Dispatch(cfg.maxAttempts, l, token, retried);
            && |l.events| <= |l'.events|
            && Performed(t, cfg, x, l, PerformAll(cfg, nowMs, x, Since(l, l')), l')
  {
    if CanBuild(l.Provider(), token) {
      NotePerformed(t, cfg, nowMs, x, l, Forwarded(l.current.value, l.Provider(), token), Forwarding(retried));
    } else {
      ReleasePerformed(t, cfg, nowMs, x, l, FailOver(cfg.maxAttempts, l));
    }
  }

  lemma RetryPerformed(t: Table, cfg: Config, nowMs: int, x: Effects, l: Local, token: Token)
    requires TokensOk(t, cfg.providers, x.tokens) && l.current.Some?
    ensures var l' := Dispatch(cfg.maxAttempts, Log(l, Refreshed(l.current.value.id, token)), token, true);
            && |l.events| <= |l'.events|
            && Performed(t, cfg, x, l, PerformAll(cfg, nowMs, x, Since(l, l')), l')
  {
    var e := Refreshed(l.current.value.id, token);
    var m := Log(l, e);
    var l' := Dispatch(cfg.maxAttempts, m, token, true);
    DispatchPerformed(t, cfg, nowMs, x, m, token, true);
    assert Since(l, l') == [e] + Since(m, l');
    assert ([e] + Since(m, l'))[1..] == Since(m, l');
  }

  lemma OutsidePerformed(t: Table, cfg: Config, nowMs: int, x: Effects, l: Local, a: Answer)
    requires TokensOk(t, cfg.providers, x.tokens)
    requires Sane(l) && !InAttempt(l.pc) && (l.pc.Returned? || !l.HoldsLease())
    requires l.pc.Ranking? ==> forall s :: s in l.pc.pool ==> Known(t, s)
    ensures var l' := Resume(cfg.maxAttempts, l, a);
            && |l.events| <= |l'.events|
            && Performed(t, cfg, x, l, PerformAll(cfg, nowMs, x, Since(l, l')), l')
  {
    hide TokensOk, Performed, Known;
    if l.pc.Ranking? && a.Gathered? && Choose(l.pc.pool, l.tried, a.info, a.nowMs).Chosen? {
      TakeLeasePerformed(t, cfg, nowMs, x, l, Choose(l.pc.pool, l.tried, a.info, a.nowMs).sub);
    } else {
      QuietPerformed(t, cfg, nowMs, x, l, Resume(cfg.maxAttempts, l, a));
    }
  }

  lemma InsidePerformed(t: Table, cfg: Config, nowMs: int, x: Effects, l: Local, a: Answer)
    requires TokensOk(t, cfg.providers, x.tokens)
    requires Sane(l) && InAttempt(l.pc) && l.HoldsLease() && Known(t, l.current.value)
    ensures var l' := Resume(cfg.maxAttempts, l, a);
            && |l.events| <= |l'.events|
            && Performed(t, cfg, x, l, PerformAll(cfg, nowMs, x, Since(l, l')), l')
  {
    hide TokensOk, Performed, Known;
    ReleasePerformed(t, cfg, nowMs, x, l, Fail(l));
    ReleasePerformed(t, cfg, nowMs, x, l, FailOver(cfg.maxAttempts, l));
    match l.pc {
      case AwaitingToken =>
        if a.TokenIs? {
          DispatchPerformed(t, cfg, nowMs, x, l, a.token, false);
        }
      case Forwarding(retried) =>
        if a.Response? {
          NotePerformed(t, cfg, nowMs, x, l, Harvested(l.current.value.id, a.status), Harvesting(retried, a.status));
        }
      case Harvesting(retried, status) =>
        var n := if Forwards(l.events) == [] then 0 else |Forwards(l.events)| - 1;
        NotePerformed(t, cfg, nowMs, x, l, Cancelled(n), Discarding);
        NotePerformed(t, cfg, nowMs, x, l, Cancelled(n), Discarding401);
        QuietPerformed(t, cfg, nowMs, x, l, Goto(l, Returned(status)));
      case Discarding401 =>
        AskRefreshPerformed(t, cfg, nowMs, x, l);
      case Refreshing =>
        if a.TokenIs? {
          RetryPerformed(t, cfg, nowMs, x, l, a.token);
        }
      case _ =>
    }
  }

  /** Whatever the await answered: the tracker moves with the request's lease, a new wait is for
      the request's own subscription, and the token manager stays consistent. */
  lemma ResumePerformed(t: Table, cfg: Config, nowMs: int, x: Effects, q: Request, a: Answer)
    requires TokensOk(t, cfg.providers, x.tokens)
    requires RequestOk(t, x.tokens, q) && TraceOk(cfg.maxAttempts, q.local)
    ensures var l' := Resume(cfg.maxAttempts, q.local, a);
            && |q.local.events| <= |l'.events|
            && Performed(t, cfg, x, q.local, PerformAll(cfg, nowMs, x, Since(q.local, l')), l')
  {
    if InAttempt(q.local.pc) {
      InsidePerformed(t, cfg, nowMs, x, q.local, a);
    } else {
      OutsidePerformed(t, cfg, nowMs, x, q.local, a);
    }
  }

  /** The token a request is given belongs to the account of its subscription, also when another
      caller's refresh produced it. */
  lemma TokenIsOwn(cfg: Config, s: System, q: Request, a: Answer)
    requires TokensOk(s.table, cfg.providers, s.tokens) && RequestOk(s.table, s.tokens, q)
    requires WantsToken(q.local.pc) && Fits(s, q, a) && a.TokenIs?
    ensures a.token.account == q.local.current.value.access.account
  {
    if q.wait.value.OnRun? {
      var run := s.tokens.runs[q.wait.value.run];
      assert RunOk(s.table, cfg.providers, run);
      assert Known(s.table, q.local.current.value);
    }
  }

  lemma ListedRows(s: System, q: Request, a: Answer)
    requires TableOk(s.table) && q.local.pc.Listing? && Fits(s, q, a) && a.Pool?
    ensures forall r :: r in a.rows ==> Usable(s.table, q.local, r) && s.table[r.id] == r
  {
  }

  /** What a request's next place is made of. */
  ghost predicate NextPlace(l: Local, a: Answer, l': Local) {
    && l'.input == l.input
    && !l'.pc.Authenticating?
    && (l'.principal == l.principal || (l.pc.Authenticating? && l'.principal.Some?))
    && (InAttempt(l'.pc) ==>
          || (InAttempt(l.pc) && l'.current == l.current)
          || (l.pc.Ranking? && l'.current.Some? && l'.current.value in l.pc.pool))
    && (l'.pc.Ranking? ==> l.pc.Listing? && a.Pool? && l'.pc.pool == a.rows)
    && (l'.pc.Listing? ==> (l.pc.Authenticating? && l'.principal.Some?) || InAttempt(l.pc))
  }

  lemma InsidePlace(maxAttempts: nat, l: Local, a: Answer)
    requires Sane(l) && InAttempt(l.pc)
    ensures NextPlace(l, a, Resume(maxAttempts, l, a))
  {
    hide Forwards, Choose;
  }

  lemma ResumePlace(maxAttempts: nat, l: Local, a: Answer)
    requires Sane(l)
    ensures NextPlace(l, a, Resume(maxAttempts, l, a))
  {
    hide Forwards, Choose;
    if InAttempt(l.pc) {
      hide Resume, NextPlace;
      InsidePlace(maxAttempts, l, a);
    }
  }

  lemma PlaceStaysOk(cfg: Config, s: System, q: Request, a: Answer)
    requires TableOk(s.table) && PlaceOk(s.table, q.local) && Sane(q.local) && Fits(s, q, a)
    ensures PlaceOk(s.table, Resume(cfg.maxAttempts, q.local, a))
  {
    ResumePlace(cfg.maxAttempts, q.local, a);
    if q.local.pc.Listing? && a.Pool? {
      ListedRows(s, q, a);
    }
    hide Resume, Fits, TableOk;
  }

  lemma OwnForwardsStay(cfg: Config, s: System, q: Request, a: Answer)
    requires TokensOk(s.table, cfg.providers, s.tokens) && RequestOk(s.table, s.tokens, q) && Fits(s, q, a)
    ensures var l' := Resume(cfg.maxAttempts, q.local, a);
            AllOwn(s.table, l'.principal, l'.Provider(), Forwards(l'.events))
  {
    ResumePlace(cfg.maxAttempts, q.local, a);
    ResumeForwards(cfg.maxAttempts, q.local, a);
    if WantsToken(q.local.pc) && a.TokenIs? {
      TokenIsOwn(cfg, s, q, a);
    }
    hide Resume, Fits, TokensOk, Forwards, WaitOk;
  }

  lemma ResumeKeepsRequest(cfg: Config, s: System, q: Request, a: Answer, ts': Tokens.State, wait': Option<Tokens.Wait>)
    requires TableOk(s.table) && TokensOk(s.table, cfg.providers, s.tokens)
    requires RequestOk(s.table, s.tokens, q) && Fits(s, q, a)
    requires var l' := Resume(cfg.maxAttempts, q.local, a);
             WantsToken(l'.pc) ==> l'.current.Some? && WaitOk(ts', wait', l'.current.value)
    ensures RequestOk(s.table, ts', Request(Resume(cfg.maxAttempts, q.local, a), wait'))
  {
    PlaceStaysOk(cfg, s, q, a);
    OwnForwardsStay(cfg, s, q, a);
    hide Resume, Fits, TableOk, TokensOk, AllOwn, PlaceOk, WaitOk;
  }
}
