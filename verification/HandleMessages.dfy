/** One request through the proxy: the failover loop as the code writes it, and the same loop as
    a machine that is resumed with the outcome of each await. */
module HandleMessages {
  import opened Domain
  import Decimal
  import opened SelectSubscription

  // ---------------------------------------------------------------- routing

  /** One or more digits, then the end or a dash. */
  predicate DigitsThenDash(s: string) {
    s != [] && Decimal.IsDigit(s[0]) && (s[1..] == [] || s[1] == '-' || DigitsThenDash(s[1..]))
  }

  predicate IsOpenAiModel(model: string) {
    || "gpt-" <= model
    || "codex-" <= model
    || (model != [] && model[0] == 'o' && DigitsThenDash(model[1..]))
  }

  /** `model` is `None` when the body names no model as a string. */
  function ProviderForModel(model: Option<string>): ProviderId {
    if model.Some? && IsOpenAiModel(model.value) then OpenAi else Anthropic
  }

  /** The same by positions: the text begins so. */
  predicate BeginsWith(text: string, prefix: string) {
    |prefix| <= |text| && forall i :: 0 <= i < |prefix| ==> text[i] == prefix[i]
  }

  /** An 'o', then k digits, then the end or a dash. */
  predicate IsOSeries(m: string, k: int) {
    && 1 <= k < |m| && m[0] == 'o'
    && (forall i :: 1 <= i <= k ==> '0' <= m[i] <= '9')
    && (k + 1 == |m| || m[k + 1] == '-')
  }

  /** The model names that belong to OpenAI. */
  ghost predicate NamesOpenAi(model: Option<string>) {
    && model.Some?
    && (BeginsWith(model.value, "gpt-") || BeginsWith(model.value, "codex-") || exists k :: IsOSeries(model.value, k))
  }

  /** k digits, then the end or a dash. */
  predicate DigitsUpTo(s: string, k: int) {
    && 1 <= k <= |s|
    && (forall i :: 0 <= i < k ==> '0' <= s[i] <= '9')
    && (k == |s| || s[k] == '-')
  }

  lemma DigitsShift(s: string, k: int)
    requires s != [] && Decimal.IsDigit(s[0]) && k >= 1
    ensures DigitsUpTo(s, k + 1) <==> DigitsUpTo(s[1..], k)
  {
    var t := s[1..];
    assert forall i :: 0 <= i < |t| ==> t[i] == s[i + 1];
    if DigitsUpTo(t, k) {
      forall i | 0 <= i < k + 1 ensures '0' <= s[i] <= '9' {
        assert i > 0 ==> s[i] == t[i - 1];
      }
    }
  }

  lemma {:induction false} DigitsByPosition(s: string)
    ensures DigitsThenDash(s) <==> exists k :: DigitsUpTo(s, k)
  {
    if s != [] && Decimal.IsDigit(s[0]) {
      if s[1..] == [] || s[1] == '-' {
        assert DigitsUpTo(s, 1);
      } else {
        DigitsByPosition(s[1..]);
        if DigitsThenDash(s) {
          var k :| DigitsUpTo(s[1..], k);
          DigitsShift(s, k);
        }
        if exists k :: DigitsUpTo(s, k) {
          var k :| DigitsUpTo(s, k);
          assert k != 1;
          DigitsShift(s, k - 1);
        }
      }
    }
  }

  lemma OSeriesByPosition(m: string)
    requires m != [] && m[0] == 'o'
    ensures DigitsThenDash(m[1..]) <==> exists k :: IsOSeries(m, k)
  {
    DigitsByPosition(m[1..]);
    forall k ensures DigitsUpTo(m[1..], k) <==> IsOSeries(m, k) {
      OSeriesShift(m, k);
    }
  }

  lemma OSeriesShift(m: string, k: int)
    requires m != [] && m[0] == 'o'
    ensures DigitsUpTo(m[1..], k) <==> IsOSeries(m, k)
  {
    var s := m[1..];
    assert forall i :: 0 <= i < |s| ==> s[i] == m[i + 1];
    if DigitsUpTo(s, k) {
      forall i | 1 <= i <= k ensures '0' <= m[i] <= '9' {
        assert m[i] == s[i - 1];
      }
    }
  }

  lemma PrefixByPosition(text: string, prefix: string)
    ensures prefix <= text <==> BeginsWith(text, prefix)
  {
  }

  /** Routing: exactly these models go to OpenAI, every other and none at all to Anthropic. */
  lemma RoutesByName(model: Option<string>)
    ensures ProviderForModel(model) == if NamesOpenAi(model) then OpenAi else Anthropic
  {
    if model.Some? {
      var m := model.value;
      PrefixByPosition(m, "gpt-");
      PrefixByPosition(m, "codex-");
      hide BeginsWith, DigitsThenDash;
      if m != [] && m[0] == 'o' {
        OSeriesByPosition(m);
      }
    }
  }

  // ---------------------------------------------------------------- what a request does

  datatype Input = Input(hasBearer: bool, model: Option<string>)

  /** The calls a request makes on its collaborators, and the refreshes it is told of.
      `Cancelled(n)` cancels the body of the n-th response it received. */
  datatype Event =
    | Leased(id: SubId)
    | Released(id: SubId)
    | AskedToken(sub: Subscription)
    | AskedRefresh(sub: Subscription)
    | Refreshed(id: SubId, token: Token)
    | Forwarded(sub: Subscription, base: ProviderId, token: Token)
    | Harvested(id: SubId, status: int)
    | Cancelled(n: nat)

  /** How an await ends; `Rejected` stands for any error but a refused refresh. */
  datatype Answer =
    | PrincipalIs(principal: Option<Principal>)
    | Pool(rows: seq<Subscription>)
    | Gathered(info: SubId -> Info, nowMs: int)
    | TokenIs(token: Token)
    | RefreshFailed
    | Response(status: int)
    | Done
    | Rejected

  datatype Ending = Unauthorized | NoCapacity(retryAfterSeconds: int) | Threw

  /** Where a request waits. */
  datatype Pc =
    | Authenticating
    | Listing
    | Ranking(pool: seq<Subscription>)
    | AwaitingToken
    | Forwarding(retried: bool)
    | Harvesting(retried: bool, status: int)
    | Discarding401
    | Refreshing
    | Discarding
    | Returned(status: int)
    | Ended(why: Ending)

  datatype Local = Local(
    input: Input,
    principal: Option<Principal>,
    attempt: nat,
    tried: set<SubId>,
    current: Option<Subscription>,
    isReleased: bool,
    pc: Pc,
    events: seq<Event>)
  {
    function Provider(): ProviderId { ProviderForModel(input.model) }

    predicate HoldsLease() { current.Some? && !isReleased }
  }

  predicate IsRetriable(status: int) {
    status == 429 || status == 529 || status >= 500
  }

  // ---------------------------------------------------------------- reading a log of events

  function Pick<T>(events: seq<Event>, f: Event -> Option<T>): seq<T> {
    if events == [] then [] else
      var front := Pick(events[..|events| - 1], f);
      match f(events[|events| - 1])
      case Some(x) => front + [x]
      case None => front
  }

  datatype Forward = Forward(sub: Subscription, base: ProviderId, token: Token)

  function AsLease(e: Event): Option<SubId> { if e.Leased? then Some(e.id) else None }
  function AsRelease(e: Event): Option<SubId> { if e.Released? then Some(e.id) else None }
  function AsForward(e: Event): Option<Forward> { if e.Forwarded? then Some(Forward(e.sub, e.base, e.token)) else None }
  function AsHarvest(e: Event): Option<(SubId, int)> { if e.Harvested? then Some((e.id, e.status)) else None }
  function AsCancel(e: Event): Option<nat> { if e.Cancelled? then Some(e.n) else None }
  function AsRefresh(e: Event): Option<(SubId, Token)> { if e.Refreshed? then Some((e.id, e.token)) else None }

  function Leases(events: seq<Event>): seq<SubId> { Pick(events, AsLease) }
  function Releases(events: seq<Event>): seq<SubId> { Pick(events, AsRelease) }
  function Forwards(events: seq<Event>): seq<Forward> { Pick(events, AsForward) }
  function Harvests(events: seq<Event>): seq<(SubId, int)> { Pick(events, AsHarvest) }
  function Cancels(events: seq<Event>): seq<nat> { Pick(events, AsCancel) }
  function Refreshes(events: seq<Event>): seq<(SubId, Token)> { Pick(events, AsRefresh) }

  // ---------------------------------------------------------------- the machine

  function Log(l: Local, e: Event): Local {
    l.(events := l.events + [e])
  }

  function Goto(l: Local, pc: Pc): Local {
    l.(pc := pc)
  }

  /** The `release` closure: idempotent. */
  function Release(l: Local): Local {
    if l.HoldsLease() then Log(l, Released(l.current.value.id)).(isReleased := true) else l
  }

  /** The loop test, at the top of an attempt. */
  function LoopTest(maxAttempts: nat, l: Local): Local {
    if l.attempt < maxAttempts then Goto(l, Listing) else Goto(l, Ended(Ending.NoCapacity(30)))
  }

  function FailOver(maxAttempts: nat, l: Local): Local {
    LoopTest(maxAttempts, Release(l).(attempt := l.attempt + 1))
  }

  function Fail(l: Local): Local {
    Goto(Release(l), Ended(Threw))
  }

  function TakeLease(l: Local, s: Subscription): Local {
    var leased := l.(tried := l.tried + {s.id}, current := Some(s), isReleased := false);
    Goto(Log(Log(leased, Leased(s.id)), AskedToken(s)), AwaitingToken)
  }

  predicate CanBuild(provider: ProviderId, token: Token) {
    provider == OpenAi ==> token.hasAccountId
  }

  function Dispatch(maxAttempts: nat, l: Local, token: Token, retried: bool): Local
    requires l.current.Some?
  {
    if CanBuild(l.Provider(), token)
    then Goto(Log(l, Forwarded(l.current.value, l.Provider(), token)), Forwarding(retried))
    else FailOver(maxAttempts, l)
  }

  /** Cancels the body of the response just received. */
  function Cancel(l: Local, next: Pc): Local {
    Goto(Log(l, Cancelled(if Forwards(l.events) == [] then 0 else |Forwards(l.events)| - 1)), next)
  }

  function Judge(l: Local, retried: bool, status: int): Local {
    if status == 401 then Cancel(l, if retried then Discarding else Discarding401)
    else if IsRetriable(status) then Cancel(l, Discarding)
    else Goto(l, Returned(status))
  }

  predicate InAttempt(pc: Pc) {
    pc.AwaitingToken? || pc.Forwarding? || pc.Harvesting? || pc.Discarding401? || pc.Refreshing? || pc.Discarding?
  }

  function Start(maxAttempts: nat, input: Input): Local {
    Local(input, None, 0, {}, None, false, if input.hasBearer then Authenticating else Ended(Unauthorized), [])
  }

  /** A request in an attempt works on a current subscription. */
  predicate Sane(l: Local) {
    InAttempt(l.pc) || l.pc.Returned? ==> l.current.Some?
  }

  /** From one await to the next. */
  function Resume(maxAttempts: nat, l: Local, a: Answer): (r: Local)
    requires Sane(l)
    ensures Sane(r)
  {
    match l.pc
    case Authenticating =>
      if !a.PrincipalIs? then Goto(l, Ended(Threw))
      else if a.principal.None? then Goto(l, Ended(Unauthorized))
      else LoopTest(maxAttempts, l.(principal := a.principal))
    case Listing =>
      if a.Pool? then Goto(l, Ranking(a.rows)) else Goto(l, Ended(Threw))
    case Ranking(pool) =>
      if !a.Gathered? then Goto(l, Ended(Threw))
      else
        (match Choose(pool, l.tried, a.info, a.nowMs)
         case Chosen(s) => TakeLease(l, s)
         case NoCapacity(retry) => Goto(l, Ended(Ending.NoCapacity(retry))))
    case AwaitingToken =>
      if a.TokenIs? then Dispatch(maxAttempts, l, a.token, false)
      else if a.RefreshFailed? then FailOver(maxAttempts, l)
      else Fail(l)
    case Forwarding(retried) =>
      if a.Response? then Goto(Log(l, Harvested(l.current.value.id, a.status)), Harvesting(retried, a.status))
      else Fail(l)
    case Harvesting(retried, status) =>
      if a.Done? then Judge(l, retried, status) else Fail(l)
    case Discarding401 =>
      if a.Done? then Goto(Log(l, AskedRefresh(l.current.value)), Refreshing) else Fail(l)
    case Refreshing =>
      if a.TokenIs? then Dispatch(maxAttempts, Log(l, Refreshed(l.current.value.id, a.token)), a.token, true)
      else if a.RefreshFailed? then FailOver(maxAttempts, l)
      else Fail(l)
    case Discarding =>
      if a.Done? then FailOver(maxAttempts, l) else Fail(l)
    case Returned(_) => l
    case Ended(_) => l
  }

  function Run(maxAttempts: nat, l: Local, answers: seq<Answer>): (r: Local)
    requires Sane(l)
    ensures Sane(r)
  {
    if answers == [] then l
    else Resume(maxAttempts, Run(maxAttempts, l, answers[..|answers| - 1]), answers[|answers| - 1])
  }

  lemma RunExtends(maxAttempts: nat, l: Local, answers: seq<Answer>, a: Answer)
    requires Sane(l)
    ensures Run(maxAttempts, l, answers + [a]) == Resume(maxAttempts, Run(maxAttempts, l, answers), a)
  {
    assert (answers + [a])[..|answers|] == answers;
  }

  // ---------------------------------------------------------------- the code

  /** How one attempt ends: the relayed response, the "failover" value, or one of the errors. */
  datatype Attempt = Relay(status: int) | Failover | RefreshError | OtherError

  /** What the caller of `handle` gets. */
  datatype Result = Relayed(status: int) | Raised(why: Ending)

  function Outcome(r: Result): Pc {
    match r
    case Relayed(status) => Returned(status)
    case Raised(why) => Ended(why)
  }

  /** An await: anything may come back, and the machine is resumed with it. */
  method Await(maxAttempts: nat, ghost start: Local, answers0: seq<Answer>) returns (a: Answer, answers: seq<Answer>)
    requires Sane(start)
    ensures answers == answers0 + [a]
    ensures Run(maxAttempts, start, answers) == Resume(maxAttempts, Run(maxAttempts, start, answers0), a)
  {
    a := *;
    answers := answers0 + [a];
    RunExtends(maxAttempts, start, answers0, a);
  }

  /** What `forward` is given, or `None` when no valid request can be built. */
  function BuildOutbound(subscription: Subscription, provider: ProviderId, token: Token): Option<Event> {
    if provider == OpenAi && !token.hasAccountId then None else Some(Forwarded(subscription, provider, token))
  }

  lemma ForwardCounts(events: seq<Event>, e: Event)
    requires e.Forwarded?
    ensures |Forwards(events + [e])| == |Forwards(events)| + 1
  {
    assert (events + [e])[..|events|] == events;
  }

  lemma OtherCounts(events: seq<Event>, e: Event)
    requires !e.Forwarded?
    ensures Forwards(events + [e]) == Forwards(events)
  {
    assert (events + [e])[..|events|] == events;
  }

  /** Forwards the request and harvests the response; `None` when either await throws.  As for the
      methods below, `log0` is what the call has done before, `log` what it has done after, and the
      machine, resumed with the same answers, has gone the same way. */
  method Exchange(maxAttempts: nat, ghost start: Local, subscription: Subscription, ghost retried: bool,
                  log0: seq<Event>, answers0: seq<Answer>)
    returns (status: Option<int>, log: seq<Event>, answers: seq<Answer>)
    requires Sane(start)
    requires var l := Run(maxAttempts, start, answers0);
             l.pc == Forwarding(retried) && l.events == log0 && l.current == Some(subscription)
    ensures var m := Run(maxAttempts, start, answers0).(events := log);
            Run(maxAttempts, start, answers) == if status.None? then Fail(m) else Judge(m, retried, status.value)
    ensures status.Some? ==> Forwards(log) == Forwards(log0)
  {
    hide Run, Forwards, Choose;
    var a;
    log := log0;
    a, answers := Await(maxAttempts, start, answers0);
    if !a.Response? {
      return None, log, answers;
    }
    OtherCounts(log, Harvested(subscription.id, a.status));
    log := log + [Harvested(subscription.id, a.status)];
    status := Some(a.status);
    a, answers := Await(maxAttempts, start, answers);
    if !a.Done? {
      status := None;
    }
  }

  /** The answer to a first 401: refresh, then forward once more. */
  method RefreshAndRetry(maxAttempts: nat, ghost start: Local, subscription: Subscription, provider: ProviderId,
                         log0: seq<Event>, answers0: seq<Answer>)
    returns (ending: Attempt, log: seq<Event>, answers: seq<Answer>)
    requires Sane(start)
    requires var l := Run(maxAttempts, start, answers0);
             l.pc == Discarding401 && l.events == log0 && l.current == Some(subscription) && l.Provider() == provider
    ensures var m := Run(maxAttempts, start, answers0).(events := log);
            Run(maxAttempts, start, answers) ==
              match ending
              case Relay(status) => Judge(m, true, status)
              case OtherError => Fail(m)
              case _ => FailOver(maxAttempts, m)
    ensures ending.Relay? ==> Forwards(log) != []
  {
    hide Run, Forwards, Choose;
    var a;
    log := log0;
    a, answers := Await(maxAttempts, start, answers0);
    if !a.Done? {
      return OtherError, log, answers;
    }
    log := log + [AskedRefresh(subscription)];
    a, answers := Await(maxAttempts, start, answers);
    if a.RefreshFailed? {
      return RefreshError, log, answers;
    }
    if !a.TokenIs? {
      return OtherError, log, answers;
    }
    log := log + [Refreshed(subscription.id, a.token)];
    var outbound := BuildOutbound(subscription, provider, a.token);
    if outbound.None? {
      return Failover, log, answers;
    }
    ForwardCounts(log, outbound.value);
    log := log + [outbound.value];
    var status;
    status, log, answers := Exchange(maxAttempts, start, subscription, true, log, answers);
    ending := if status.None? then OtherError else Relay(status.value);
  }

  /** Cancels the body of the last response and gives the attempt up; `m` is the machine before it. */
  method DiscardAndFailOver(maxAttempts: nat, ghost start: Local, log0: seq<Event>, answers0: seq<Answer>, ghost m: Local)
    returns (ending: Attempt, log: seq<Event>, answers: seq<Answer>)
    requires Sane(start)
    requires Run(maxAttempts, start, answers0) == Cancel(m, Discarding) && m.events == log0 && Forwards(log0) != []
    ensures ending == Failover || ending == OtherError
    ensures Run(maxAttempts, start, answers) ==
              if ending == Failover then FailOver(maxAttempts, m.(events := log)) else Fail(m.(events := log))
  {
    hide Run, Forwards, Choose;
    var a;
    log := log0 + [Cancelled(|Forwards(log0)| - 1)];
    a, answers := Await(maxAttempts, start, answers0);
    ending := if a.Done? then Failover else OtherError;
  }

  /** One attempt, and how the loop goes on from its ending. */
  method AttemptOnce(maxAttempts: nat, ghost start: Local, subscription: Subscription, provider: ProviderId,
                     log0: seq<Event>, answers0: seq<Answer>)
    returns (ending: Attempt, log: seq<Event>, answers: seq<Answer>)
    requires Sane(start)
    requires var l := Run(maxAttempts, start, answers0);
             && l.pc == AwaitingToken && l.events == log0 + [AskedToken(subscription)]
             && l.current == Some(subscription) && l.Provider() == provider
    ensures var m := Run(maxAttempts, start, answers0).(events := log);
            Run(maxAttempts, start, answers) ==
              match ending
              case Relay(status) => Goto(m, Returned(status))
              case OtherError => Fail(m)
              case _ => FailOver(maxAttempts, m)
  {
    hide Run, Forwards, Choose, TakeLease, IsOpenAiModel;
    var a;
    ghost var l0 := Run(maxAttempts, start, answers0);
    log := log0 + [AskedToken(subscription)];
    a, answers := Await(maxAttempts, start, answers0);
    if a.RefreshFailed? {
      return RefreshError, log, answers;
    }
    if !a.TokenIs? {
      return OtherError, log, answers;
    }
    var outbound := BuildOutbound(subscription, provider, a.token);
    if outbound.None? {
      return Failover, log, answers;
    }
    ForwardCounts(log, outbound.value);
    log := log + [outbound.value];
    var response;
    response, log, answers := Exchange(maxAttempts, start, subscription, false, log, answers);
    if response.None? {
      return OtherError, log, answers;
    }
    var status := response.value;

    if status == 401 {
      OtherCounts(log, Cancelled(|Forwards(log)| - 1));
      log := log + [Cancelled(|Forwards(log)| - 1)];
      ending, log, answers := RefreshAndRetry(maxAttempts, start, subscription, provider, log, answers);
      if !ending.Relay? {
        return;
      }
      status := ending.status;
      if status == 401 {
        ending, log, answers := DiscardAndFailOver(maxAttempts, start, log, answers, l0.(events := log));
        return;
      }
    }

    if IsRetriable(status) {
      ending, log, answers := DiscardAndFailOver(maxAttempts, start, log, answers, l0.(events := log));
      return;
    }
    ending := Relay(status);
  }

  /** The failover loop.  `log` is what the call did; `answers` is what its awaits gave it.  The
      loop does exactly what the machine does when resumed with the same answers. */
  method Handle(maxAttempts: nat, input: Input) returns (result: Result, log: seq<Event>, answers: seq<Answer>)
    ensures var l := Run(maxAttempts, Start(maxAttempts, input), answers);
            l.pc == Outcome(result) && l.events == log
  {
    ghost var start := Start(maxAttempts, input);
    answers := [];
    log := [];
    if !input.hasBearer {
      return Raised(Unauthorized), log, answers;
    }
    var a;
    a, answers := Await(maxAttempts, start, answers);
    if !a.PrincipalIs? {
      return Raised(Threw), log, answers;
    }
    if a.principal.None? {
      return Raised(Unauthorized), log, answers;
    }

    var provider := ProviderForModel(input.model);
    var tried: set<SubId> := {};
    var attempt := 0;
    while attempt < maxAttempts
      invariant 0 <= attempt <= maxAttempts
      invariant var l := Run(maxAttempts, start, answers);
                && l.events == log && l.attempt == attempt && l.tried == tried && l.Provider() == provider
                && l.pc == if attempt < maxAttempts then Listing else Ended(Ending.NoCapacity(30))
    {
      a, answers := Await(maxAttempts, start, answers);
      if !a.Pool? {
        return Raised(Threw), log, answers;
      }
      var pool := a.rows;
      a, answers := Await(maxAttempts, start, answers);
      if !a.Gathered? {
        return Raised(Threw), log, answers;
      }
      var choice := Choose(pool, tried, a.info, a.nowMs);
      if choice.NoCapacity? {
        return Raised(Ending.NoCapacity(choice.retryAfterSeconds)), log, answers;
      }
      var subscription := choice.sub;
      tried := tried + {subscription.id};
      log := log + [Leased(subscription.id)];
      var isReleased := false;

      var ending;
      ending, log, answers := AttemptOnce(maxAttempts, start, subscription, provider, log, answers);
      if ending.Relay? {
        return Relayed(ending.status), log, answers;
      }
      if !isReleased {
        isReleased := true;
        log := log + [Released(subscription.id)];
      }
      if ending.OtherError? {
        return Raised(Threw), log, answers;
      }
      attempt := attempt + 1;
    }
    return Raised(Ending.NoCapacity(30)), log, answers;
  }
}
