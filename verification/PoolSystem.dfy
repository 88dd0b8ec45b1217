/** Many requests, refreshes and releases over one tracker, one token manager and one table. */
module PoolSystem {
  import opened Domain
  import opened InFlight
  import opened SelectSubscription
  import opened SubscriptionTable
  import opened HandleMessages
  import Tokens

  datatype Config = Config(maxAttempts: nat, skewMs: int, providers: set<ProviderId>)

  /** A request and, while it waits for a token, what it waits for. */
  datatype Request = Request(local: Local, wait: Option<Tokens.Wait>)

  datatype System = System(
    table: Table,
    counts: Counts,
    tokens: Tokens.State,
    requests: seq<Request>,
    proberReads: seq<Subscription>,
    nowMs: int)

  /** What the scheduler may do next: let a request arrive, resolve one await of one request, let
      the adapter call a relay's `release` (any number of times), resolve one await of a refresh,
      run a management call, let the prober read a row and later ask for its token, or let time
      pass. */
  datatype Action =
    | Arrive(input: Input)
    | Reply(request: nat, answer: Answer)
    | ReleaseRelay(request: nat)
    | RefreshEvent(run: nat, event: Tokens.Event)
    | AddSubscription(id: SubId, add: AddInput)
    | DisableSubscription(user: UserId, id: SubId)
    | ProberReads(id: SubId)
    | ProberAsks(read: nat)
    | Tick(ms: nat)

  // ---------------------------------------------------------------- steps

  /** What the calls in a log do to the shared objects. */
  datatype Effects = Effects(counts: Counts, tokens: Tokens.State, wait: Option<Tokens.Wait>)

  function Perform(cfg: Config, nowMs: int, x: Effects, e: Event): Effects {
    match e
    case Leased(id) => x.(counts := Inc(x.counts, id))
    case Released(id) => x.(counts := Dec(x.counts, id))
    case AskedToken(sub) =>
      var (tokens, wait) := Tokens.Ensure(x.tokens, sub, nowMs, cfg.skewMs, cfg.providers);
      x.(tokens := tokens, wait := Some(wait))
    case AskedRefresh(sub) =>
      var (tokens, run) := Tokens.Join(x.tokens, sub, cfg.providers);
      x.(tokens := tokens, wait := Some(Tokens.OnRun(run)))
    case _ => x
  }

  function PerformAll(cfg: Config, nowMs: int, x: Effects, events: seq<Event>): Effects
    decreases |events|
  {
    if events == [] then x else PerformAll(cfg, nowMs, Perform(cfg, nowMs, x, events[0]), events[1..])
  }

  /** The part of the log that is new. */
  function Since(l: Local, l': Local): seq<Event>
    requires |l.events| <= |l'.events|
  {
    l'.events[|l.events|..]
  }

  function OutcomeAnswer(o: Tokens.Outcome): Answer {
    match o
    case Got(token) => TokenIs(token)
    case Refused => RefreshFailed
    case Broken => Rejected
  }

  /** How an await of this request may end in this state. */
  ghost predicate Fits(s: System, q: Request, a: Answer) {
    match q.local.pc
    case Authenticating => a.PrincipalIs? || a.Rejected?
    case Listing =>
      || a.Rejected?
      || (&& a.Pool? && q.local.principal.Some?
          && var p := q.local.principal.value;
             Lists(s.table, if p.target == Own then UserPool else DonorPool,
                   if p.target == Own then Some(p.user) else None, q.local.Provider(), a.rows))
    case Ranking(_) => a.Rejected? || (a.Gathered? && a.nowMs == s.nowMs)
    case AwaitingToken => TokenFits(s, q.wait, a)
    case Refreshing => TokenFits(s, q.wait, a)
    case Forwarding(_) => a.Response? || a.Rejected?
    case Harvesting(_, _) => a.Done? || a.Rejected?
    case Discarding401 => a.Done? || a.Rejected?
    case Discarding => a.Done? || a.Rejected?
    case _ => false
  }

  ghost predicate TokenFits(s: System, wait: Option<Tokens.Wait>, a: Answer) {
    match wait
    case Some(Ready(token)) => a == TokenIs(token)
    case Some(OnRun(run)) => run < |s.tokens.runs| && s.tokens.runs[run].phase.Settled?
                             && a == OutcomeAnswer(s.tokens.runs[run].phase.outcome)
    case None => false
  }

  /** A refresh grant carries tokens of the account whose refresh token was sent. */
  predicate GrantOf(account: string, g: Grant) {
    g.access.account == account && g.refresh.account == account
  }

  ghost predicate Enabled(cfg: Config, s: System, a: Action) {
    match a
    case Arrive(_) => true
    case Reply(r, answer) => r < |s.requests| && Sane(s.requests[r].local) && Fits(s, s.requests[r], answer)
    case ReleaseRelay(r) => r < |s.requests| && s.requests[r].local.pc.Returned?
    case RefreshEvent(run, e) =>
      && Tokens.Enabled(s.tokens, run, e)
      && (e.Granted? ==> GrantOf(s.tokens.runs[run].sub.refresh.account, e.grant))
    case AddSubscription(id, add) => GrantOf(add.grant.access.account, add.grant)
    case DisableSubscription(_, _) => true
    case ProberReads(id) => id in s.table
    case ProberAsks(read) => read < |s.proberReads|
    case Tick(_) => true
  }

  function WithRequest(cfg: Config, s: System, r: nat, l': Local): System
    requires r < |s.requests|
    requires |s.requests[r].local.events| <= |l'.events|
  {
    var q := s.requests[r];
    var x := PerformAll(cfg, s.nowMs, Effects(s.counts, s.tokens, q.wait), Since(q.local, l'));
    s.(counts := x.counts, tokens := x.tokens, requests := s.requests[r := Request(l', x.wait)])
  }

  lemma InsideGrows(maxAttempts: nat, l: Local, a: Answer)
    requires Sane(l) && InAttempt(l.pc)
    ensures |l.events| <= |Resume(maxAttempts, l, a).events|
  {
    hide Forwards;
    assert |l.events| <= |FailOver(maxAttempts, l).events| && |l.events| <= |Fail(l).events|;
    hide FailOver, Fail;
    if a.TokenIs? {
      var logged := Log(l, Refreshed(l.current.value.id, a.token));
      assert |l.events| <= |Dispatch(maxAttempts, l, a.token, false).events|;
      RetryGrows(maxAttempts, logged, a.token);
    }
    hide Dispatch;
  }

  lemma RetryGrows(maxAttempts: nat, l: Local, token: Token)
    requires l.current.Some?
    ensures |l.events| <= |Dispatch(maxAttempts, l, token, true).events|
  {
  }

  lemma ResumeGrows(maxAttempts: nat, l: Local, a: Answer)
    requires Sane(l)
    ensures |l.events| <= |Resume(maxAttempts, l, a).events|
  {
    if InAttempt(l.pc) {
      InsideGrows(maxAttempts, l, a);
    } else {
      hide Forwards, Choose;
    }
  }

  ghost function Next(cfg: Config, s: System, a: Action): System
    requires Enabled(cfg, s, a)
  {
    match a
    case Arrive(input) => s.(requests := s.requests + [Request(Start(cfg.maxAttempts, input), None)])
    case Reply(r, answer) =>
      ResumeGrows(cfg.maxAttempts, s.requests[r].local, answer);
      WithRequest(cfg, s, r, Resume(cfg.maxAttempts, s.requests[r].local, answer))
    case ReleaseRelay(r) => WithRequest(cfg, s, r, Release(s.requests[r].local))
    case RefreshEvent(run, e) =>
      s.(tokens := Tokens.Step(s.tokens, run, e), table := Tokens.StepTable(s.table, s.tokens.runs[run], e))
    case AddSubscription(id, add) => s.(table := Apply(s.table, Op.Add(id, add)))
    case DisableSubscription(user, id) => s.(table := Apply(s.table, Op.Disable(user, id)))
    case ProberReads(id) => s.(proberReads := s.proberReads + [s.table[id]])
    case ProberAsks(read) =>
      s.(tokens := Tokens.Ensure(s.tokens, s.proberReads[read], s.nowMs, cfg.skewMs, cfg.providers).0)
    case Tick(ms) => s.(nowMs := s.nowMs + ms)
  }

  function Initial(nowMs: int): System {
    System(map[], map[], Tokens.State(map[], []), [], [], nowMs)
  }

  ghost predicate StepsTo(cfg: Config, s: System, a: Action, s': System) {
    Enabled(cfg, s, a) && s' == Next(cfg, s, a)
  }

  /** A run: any schedule at all, from the empty system. */
  ghost predicate IsRun(cfg: Config, states: seq<System>, actions: seq<Action>) {
    && |states| == |actions| + 1
    && (exists start :: states[0] == Initial(start))
    && forall i :: 0 <= i < |actions| ==> StepsTo(cfg, states[i], actions[i], states[i + 1])
  }
}
