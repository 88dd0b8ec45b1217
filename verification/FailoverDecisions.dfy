/** What a call decides, answer by answer: which response it relays, when it refreshes, when it goes
    on to another subscription, and when it ends. */
module FailoverDecisions {
  import opened Domain
  import opened SelectSubscription
  import opened HandleMessages
  import opened FailoverTrace

  function After(maxAttempts: nat, input: Input, answers: seq<Answer>): Local {
    Run(maxAttempts, Start(maxAttempts, input), answers)
  }

  lemma AfterOne(maxAttempts: nat, input: Input, answers: seq<Answer>, a: Answer)
    ensures After(maxAttempts, input, answers + [a]) == Resume(maxAttempts, After(maxAttempts, input, answers), a)
  {
    RunExtends(maxAttempts, Start(maxAttempts, input), answers, a);
  }

  lemma AfterTwo(maxAttempts: nat, input: Input, answers: seq<Answer>, a: Answer, b: Answer)
    ensures After(maxAttempts, input, answers + [a, b])
         == Resume(maxAttempts, Resume(maxAttempts, After(maxAttempts, input, answers), a), b)
  {
    AfterOne(maxAttempts, input, answers, a);
    AfterOne(maxAttempts, input, answers + [a], b);
    assert answers + [a] + [b] == answers + [a, b];
  }

  /** The attempt of `l` was given up: its lease is back, and the next attempt lists, or there is none
      left and the caller is told to come back in thirty seconds. */
  ghost predicate WentOn(maxAttempts: nat, l: Local, l': Local) {
    && l'.input == l.input && l'.principal == l.principal && l'.tried == l.tried
    && !l'.HoldsLease() && l'.attempt == l.attempt + 1
    && l'.pc == if l.attempt + 1 < maxAttempts then Listing else Ended(Ending.NoCapacity(30))
  }

  /** The number of the response received last. */
  function LastResponse(l: Local): nat {
    if Forwards(l.events) == [] then 0 else |Forwards(l.events)| - 1
  }

  /** In an attempt the lease is held, and nowhere else but by a relay. */
  lemma LeaseIsHeld(maxAttempts: nat, input: Input, answers: seq<Answer>)
    ensures var l := After(maxAttempts, input, answers);
            && Sane(l)
            && (InAttempt(l.pc) ==> l.HoldsLease())
            && (l.HoldsLease() ==> InAttempt(l.pc) || l.pc.Returned?)
            && (l.pc.Harvesting? ==> Forwards(l.events) != [])
  {
    EveryTraceOk(maxAttempts, input, answers);
  }

  /** A response with any status below 500 but 401 and 429 is relayed, once it is harvested, and
      nothing is cancelled or released. */
  lemma HealthyIsRelayed(maxAttempts: nat, input: Input, answers: seq<Answer>)
    requires var pc := After(maxAttempts, input, answers).pc;
             pc.Harvesting? && pc.status < 500 && pc.status != 401 && pc.status != 429
    ensures var l, l' := After(maxAttempts, input, answers), After(maxAttempts, input, answers + [Done]);
            l' == l.(pc := Returned(l.pc.status))
  {
    LeaseIsHeld(maxAttempts, input, answers);
    AfterOne(maxAttempts, input, answers, Done);
    hide After;
  }

  /** A first 401: the body is cancelled, and then the subscription of this attempt is refreshed. */
  lemma First401Refreshes(maxAttempts: nat, input: Input, answers: seq<Answer>)
    requires After(maxAttempts, input, answers).pc == Harvesting(false, 401)
    ensures var l, l' := After(maxAttempts, input, answers), After(maxAttempts, input, answers + [Done, Done]);
            && l'.pc == Refreshing && l'.current == l.current && l'.HoldsLease()
            && l'.events == l.events + [Cancelled(LastResponse(l)), AskedRefresh(l.current.value)]
  {
    LeaseIsHeld(maxAttempts, input, answers);
    AfterTwo(maxAttempts, input, answers, Done, Done);
    hide After, Forwards;
  }

  /** A 429, a 5xx or a second 401: the body is cancelled, the lease is given back, the call goes on. */
  lemma GivenUpGoesOn(maxAttempts: nat, input: Input, answers: seq<Answer>)
    requires var pc := After(maxAttempts, input, answers).pc;
             pc.Harvesting? && (pc.status == 429 || pc.status >= 500 || (pc.status == 401 && pc.retried))
    ensures var l, l' := After(maxAttempts, input, answers), After(maxAttempts, input, answers + [Done, Done]);
            && WentOn(maxAttempts, l, l')
            && l'.events == l.events + [Cancelled(LastResponse(l)), Released(l.current.value.id)]
  {
    LeaseIsHeld(maxAttempts, input, answers);
    AfterTwo(maxAttempts, input, answers, Done, Done);
    hide After, Forwards;
  }

  /** A refused refresh: the lease is given back, the call goes on. */
  lemma RefusedGoesOn(maxAttempts: nat, input: Input, answers: seq<Answer>)
    requires var pc := After(maxAttempts, input, answers).pc; pc.AwaitingToken? || pc.Refreshing?
    ensures var l, l' := After(maxAttempts, input, answers), After(maxAttempts, input, answers + [RefreshFailed]);
            WentOn(maxAttempts, l, l') && l'.events == l.events + [Released(l.current.value.id)]
  {
    LeaseIsHeld(maxAttempts, input, answers);
    AfterOne(maxAttempts, input, answers, RefreshFailed);
    hide After, Forwards;
  }

  /** A token is forwarded with, for the subscription of the attempt and to the provider of the model,
      unless that is OpenAI and the token names no account. */
  lemma TokenIsUsed(maxAttempts: nat, input: Input, answers: seq<Answer>, token: Token)
    requires var pc := After(maxAttempts, input, answers).pc; pc.AwaitingToken? || pc.Refreshing?
    ensures var l, l' := After(maxAttempts, input, answers), After(maxAttempts, input, answers + [TokenIs(token)]);
            var told := if l.pc.Refreshing? then l.events + [Refreshed(l.current.value.id, token)] else l.events;
            if ProviderForModel(input.model) == OpenAi && !token.hasAccountId then
              WentOn(maxAttempts, l, l') && l'.events == told + [Released(l.current.value.id)]
            else
              && l'.pc == Forwarding(l.pc.Refreshing?) && l'.current == l.current && l'.HoldsLease()
              && l'.events == told + [Forwarded(l.current.value, ProviderForModel(input.model), token)]
  {
    LeaseIsHeld(maxAttempts, input, answers);
    InputStays(maxAttempts, input, answers);
    AfterOne(maxAttempts, input, answers, TokenIs(token));
    hide After, Forwards, ProviderForModel;
  }

  lemma StepKeepsInput(maxAttempts: nat, l: Local, a: Answer)
    requires Sane(l)
    ensures Resume(maxAttempts, l, a).input == l.input
  {
    assert FailOver(maxAttempts, l).input == Fail(l).input == l.input;
    hide Forwards, Choose, FailOver, Fail, ProviderForModel;
    if l.pc.Refreshing? && a.TokenIs? {
      GoesOnKeepsInput(maxAttempts, Log(l, Refreshed(l.current.value.id, a.token)));
    }
  }

  lemma GoesOnKeepsInput(maxAttempts: nat, l: Local)
    ensures FailOver(maxAttempts, l).input == l.input
  {
  }

  lemma {:induction false} InputStays(maxAttempts: nat, input: Input, answers: seq<Answer>)
    ensures After(maxAttempts, input, answers).input == input
  {
    if answers != [] {
      var front := answers[..|answers| - 1];
      assert answers == front + [answers[|answers| - 1]];
      hide After, Resume;
      InputStays(maxAttempts, input, front);
      AfterOne(maxAttempts, input, front, answers[|answers| - 1]);
      LeaseIsHeld(maxAttempts, input, front);
      StepKeepsInput(maxAttempts, After(maxAttempts, input, front), answers[|answers| - 1]);
    }
  }

  /** Any other error ends the call, and no lease is left. */
  lemma ErrorEnds(maxAttempts: nat, input: Input, answers: seq<Answer>)
    requires !After(maxAttempts, input, answers).pc.Returned? && !After(maxAttempts, input, answers).pc.Ended?
    ensures var l' := After(maxAttempts, input, answers + [Rejected]);
            l'.pc == Ended(Threw) && !l'.HoldsLease()
  {
    LeaseIsHeld(maxAttempts, input, answers);
    AfterOne(maxAttempts, input, answers, Rejected);
    hide After, Forwards, Choose;
  }

  /** How a call begins: without a bearer, or for a key that resolves to nobody, it is unauthorized;
      otherwise it lists for that principal, if any attempt is allowed. */
  lemma BeginsAuthenticated(maxAttempts: nat, input: Input, principal: Option<Principal>)
    ensures !input.hasBearer ==> After(maxAttempts, input, []).pc == Ended(Unauthorized)
    ensures input.hasBearer ==>
              var l := After(maxAttempts, input, [PrincipalIs(principal)]);
              && (principal.None? ==> l.pc == Ended(Unauthorized))
              && (principal.Some? ==>
                    l.principal == principal && l.attempt == 0
                    && l.pc == if 0 < maxAttempts then Listing else Ended(Ending.NoCapacity(30)))
  {
    AfterOne(maxAttempts, input, [], PrincipalIs(principal));
    assert [] + [PrincipalIs(principal)] == [PrincipalIs(principal)];
  }

  lemma ListThenRank(maxAttempts: nat, l: Local, rows: seq<Subscription>, info: SubId -> Info, nowMs: int)
    requires Sane(l) && l.pc.Listing?
    ensures Resume(maxAttempts, Resume(maxAttempts, l, Pool(rows)), Gathered(info, nowMs)) ==
              match Choose(rows, l.tried, info, nowMs)
              case Chosen(s) => TakeLease(l, s).(pc := AwaitingToken)
              case NoCapacity(retry) => l.(pc := Ended(Ending.NoCapacity(retry)))
  {
    hide Choose, Forwards;
  }

  lemma LeaseTaken(l: Local, s: Subscription)
    ensures var l' := TakeLease(l, s);
            && l'.pc == AwaitingToken && l'.HoldsLease() && l'.attempt == l.attempt && l'.current == Some(s)
            && l'.tried == l.tried + {s.id} && l'.events == l.events + [Leased(s.id), AskedToken(s)]
  {
  }

  /** An attempt begins with the rows listed: if some row was not tried and passes the fences, one such
      is leased and its token asked for; otherwise the call ends with the retry hint of the rows not
      tried, thirty seconds when there are none. */
  lemma AttemptBegins(maxAttempts: nat, input: Input, answers: seq<Answer>, rows: seq<Subscription>,
                      info: SubId -> Info, nowMs: int)
    requires After(maxAttempts, input, answers).pc.Listing? && DistinctRows(rows)
    ensures var l, l' := After(maxAttempts, input, answers), After(maxAttempts, input, answers + [Pool(rows), Gathered(info, nowMs)]);
            if exists s :: Selectable(rows, l.tried, info, nowMs, s) then
              && l'.pc == AwaitingToken && l'.HoldsLease() && l'.attempt == l.attempt
              && Selectable(rows, l.tried, info, nowMs, l'.current.value)
              && l'.tried == l.tried + {l'.current.value.id}
              && l'.events == l.events + [Leased(l'.current.value.id), AskedToken(l'.current.value)]
            else
              l'.pc == Ended(Ending.NoCapacity(HintFor(rows, l.tried, info, nowMs))) && l'.events == l.events
  {
    AfterTwo(maxAttempts, input, answers, Pool(rows), Gathered(info, nowMs));
    var l := After(maxAttempts, input, answers);
    LeaseIsHeld(maxAttempts, input, answers);
    ChooseIsLeast(rows, l.tried, info, nowMs);
    RefusalIsHint(rows, l.tried, info, nowMs);
    ListThenRank(maxAttempts, l, rows, info, nowMs);
    hide After, Choose, Selectable, HintFor, DistinctRows, Resume, TakeLease;
    if Choose(rows, l.tried, info, nowMs).Chosen? {
      LeaseTaken(l, Choose(rows, l.tried, info, nowMs).sub);
    }
  }

  // ---------------------------------------------------------------- why a call has no capacity

  /** Step k of the call was a selection that refused with this hint. */
  ghost predicate RefusedAt(maxAttempts: nat, input: Input, answers: seq<Answer>, k: int, retry: int)
  {
    && 0 <= k < |answers|
    && var l := After(maxAttempts, input, answers[..k]);
       && l.pc.Ranking? && answers[k].Gathered?
       && Choose(l.pc.pool, l.tried, answers[k].info, answers[k].nowMs) == Choice.NoCapacity(retry)
  }

  lemma ReleaseLeases(l: Local)
    ensures Leases(Release(l).events) == Leases(l.events)
  {
    if l.HoldsLease() {
      assert (l.events + [Released(l.current.value.id)])[..|l.events|] == l.events;
    }
  }

  lemma NoteLeases(l: Local, e: Event)
    requires !e.Leased?
    ensures Leases(Log(l, e).events) == Leases(l.events)
  {
    assert (l.events + [e])[..|l.events|] == l.events;
  }

  lemma GiveUpEnds(maxAttempts: nat, l: Local)
    ensures Leases(FailOver(maxAttempts, l).events) == Leases(l.events)
    ensures FailOver(maxAttempts, l).pc.Ended? ==>
              FailOver(maxAttempts, l).pc == Ended(Ending.NoCapacity(30)) && l.attempt + 1 >= maxAttempts
    ensures Fail(l).pc == Ended(Threw)
  {
    ReleaseLeases(l);
    hide Leases;
  }

  lemma GiveUpEndsAfterRefresh(maxAttempts: nat, l: Local, token: Token)
    requires l.current.Some?
    ensures var logged := Log(l, Refreshed(l.current.value.id, token));
            && Leases(FailOver(maxAttempts, logged).events) == Leases(l.events)
            && (FailOver(maxAttempts, logged).pc.Ended? ==>
                  FailOver(maxAttempts, logged).pc == Ended(Ending.NoCapacity(30)) && l.attempt + 1 >= maxAttempts)
  {
    NoteLeases(l, Refreshed(l.current.value.id, token));
    GiveUpEnds(maxAttempts, Log(l, Refreshed(l.current.value.id, token)));
    hide Leases, FailOver, Fail;
  }

  lemma EndsInside(maxAttempts: nat, l: Local, a: Answer)
    requires Sane(l) && InAttempt(l.pc) && Resume(maxAttempts, l, a).pc.Ended? && Resume(maxAttempts, l, a).pc.why.NoCapacity?
    ensures var l' := Resume(maxAttempts, l, a);
            Leases(l'.events) == Leases(l.events) && l'.pc.why.retryAfterSeconds == 30 && l.attempt + 1 >= maxAttempts
  {
    GiveUpEnds(maxAttempts, l);
    hide Leases, FailOver, Fail, Forwards, Cancel, ProviderForModel;
    if l.pc.Refreshing? && a.TokenIs? {
      GiveUpEndsAfterRefresh(maxAttempts, l, a.token);
    }
    assert forall next :: Cancel(l, next).pc == next by {
      CancelGoes(l);
    }
  }

  lemma CancelGoes(l: Local)
    ensures forall next :: Cancel(l, next).pc == next
  {
  }

  lemma LeasesSoFar(maxAttempts: nat, l: Local)
    requires TraceOk(maxAttempts, l)
    ensures Sane(l) && |Leases(l.events)| <= maxAttempts
    ensures InAttempt(l.pc) ==> |Leases(l.events)| == l.attempt + 1
    ensures l.pc.Authenticating? ==> |Leases(l.events)| == 0 && l.attempt == 0
  {
    var v := ViewOf(l.events);
    assert LeasesOk(maxAttempts, l.pc, l.attempt, l.tried, Held(l), v.leases, v.releases);
    hide LeasesOk, Leases, ResponsesOk, ForwardsOk, RepeatsAreRetries;
    LeaseCounts(maxAttempts, l.pc, l.attempt, l.tried, Held(l), v.leases, v.releases);
  }

  lemma LeaseCounts(maxAttempts: nat, pc: Pc, attempt: nat, tried: set<SubId>, held: Option<SubId>,
                    leases: seq<SubId>, releases: seq<SubId>)
    requires LeasesOk(maxAttempts, pc, attempt, tried, held, leases, releases)
    ensures |leases| <= maxAttempts
    ensures InAttempt(pc) ==> |leases| == attempt + 1
    ensures pc.Authenticating? ==> |leases| == 0 && attempt == 0
  {
  }

  lemma EndsOutside(maxAttempts: nat, l: Local, a: Answer)
    requires Sane(l) && !InAttempt(l.pc) && !l.pc.Ended? && Resume(maxAttempts, l, a).pc.Ended?
    requires Resume(maxAttempts, l, a).pc.why.NoCapacity?
    ensures var l' := Resume(maxAttempts, l, a);
            && l'.events == l.events
            && ((l.pc.Authenticating? && l.attempt >= maxAttempts && l'.pc.why.retryAfterSeconds == 30)
                || (l.pc.Ranking? && a.Gathered?
                    && Choose(l.pc.pool, l.tried, a.info, a.nowMs) == Choice.NoCapacity(l'.pc.why.retryAfterSeconds)))
  {
    hide Choose, Forwards;
  }

  lemma EndsHere(maxAttempts: nat, l: Local, a: Answer)
    requires TraceOk(maxAttempts, l) && Sane(l) && !l.pc.Ended? && Resume(maxAttempts, l, a).pc.Ended?
    requires Resume(maxAttempts, l, a).pc.why.NoCapacity?
    ensures var l' := Resume(maxAttempts, l, a);
            || (|Leases(l'.events)| == maxAttempts && l'.pc.why.retryAfterSeconds == 30)
            || (&& l.pc.Ranking? && a.Gathered?
                && Choose(l.pc.pool, l.tried, a.info, a.nowMs) == Choice.NoCapacity(l'.pc.why.retryAfterSeconds))
  {
    hide *;
    LeasesSoFar(maxAttempts, l);
    if InAttempt(l.pc) {
      EndsInside(maxAttempts, l, a);
    } else {
      EndsOutside(maxAttempts, l, a);
    }
  }

  /** A call ends without capacity only when it used up every attempt, each on another subscription,
      and then asks for thirty seconds, or when a selection refused, and then passes its hint on. */
  lemma {:induction false} NoCapacityHasCause(maxAttempts: nat, input: Input, answers: seq<Answer>)
    requires var pc := After(maxAttempts, input, answers).pc; pc.Ended? && pc.why.NoCapacity?
    ensures var l := After(maxAttempts, input, answers);
            || (|Leases(l.events)| == maxAttempts && l.pc.why.retryAfterSeconds == 30)
            || exists k :: RefusedAt(maxAttempts, input, answers, k, l.pc.why.retryAfterSeconds)
  {
    if answers != [] {
      var n := |answers| - 1;
      var front, a := answers[..n], answers[n];
      assert answers == front + [a];
      AfterOne(maxAttempts, input, front, a);
      var l := After(maxAttempts, input, front);
      EveryTraceOk(maxAttempts, input, front);
      assert TraceOk(maxAttempts, l);
      if l.pc.Ended? {
        NoCapacityHasCause(maxAttempts, input, front);
        hide After, Resume, Choose, Leases, TraceOk;
        if exists k :: RefusedAt(maxAttempts, input, front, k, l.pc.why.retryAfterSeconds) {
          var k :| RefusedAt(maxAttempts, input, front, k, l.pc.why.retryAfterSeconds);
          assert front[..k] == answers[..k];
          assert RefusedAt(maxAttempts, input, answers, k, l.pc.why.retryAfterSeconds);
        }
      } else {
        hide After, Resume, Choose, Leases, TraceOk;
        EndsHere(maxAttempts, l, a);
        if l.pc.Ranking? && a.Gathered? {
          assert answers[..n] == front;
          assert RefusedAt(maxAttempts, input, answers, n, After(maxAttempts, input, answers).pc.why.retryAfterSeconds)
            || |Leases(After(maxAttempts, input, answers).events)| == maxAttempts;
        }
      }
    }
  }
}
