/** What happened to every refresh, read from the events of a run: nothing but the one path that ends
    as it ended. */
module RefreshHistory {
  import opened Domain
  import opened SubscriptionTable
  import opened HandleMessages
  import opened PoolSystem
  import opened PoolInvariants
  import opened PoolTheorems
  import Tokens

  /** The events of refresh m among the first n steps, in order. */
  function EventsOf(actions: seq<Action>, n: nat, m: nat): seq<Tokens.Event>
    requires n <= |actions|
  {
    if n == 0 then []
    else EventsOf(actions, n - 1, m)
         + if actions[n - 1].RefreshEvent? && actions[n - 1].run == m then [actions[n - 1].event] else []
  }

  /** The provider refused, or the store did not take what it gave. */
  ghost predicate Failing(es: seq<Tokens.Event>) {
    || es == [Tokens.Denied]
    || (|es| == 2 && es[0].Granted? && es[1] == Tokens.StoreFailed)
  }

  /** How a refresh can have come to this outcome. */
  ghost predicate LedTo(providers: set<ProviderId>, sub: Subscription, outcome: Tokens.Outcome, es: seq<Tokens.Event>) {
    match outcome
    case Got(token) => |es| == 2 && es[0].Granted? && es[0].grant.access == token && es[1] == Tokens.Stored
    case Refused =>
      || (sub.provider !in providers && es == [])
      || (sub.provider in providers && es != [] && Failing(es[..|es| - 1]) && es[|es| - 1] == Tokens.Marked)
    case Broken => sub.provider in providers && es != [] && Failing(es[..|es| - 1]) && es[|es| - 1] == Tokens.MarkFailed
  }

  ghost predicate HistoryOk(providers: set<ProviderId>, r: Tokens.Run, es: seq<Tokens.Event>) {
    match r.phase
    case Requesting => es == [] && r.sub.provider in providers
    case Storing(grant) => es == [Tokens.Granted(grant)] && r.sub.provider in providers
    case Marking => Failing(es) && r.sub.provider in providers
    case Finishing(outcome) => LedTo(providers, r.sub, outcome, es)
    case Settled(outcome) => es != [] && es[|es| - 1] == Tokens.Finally && LedTo(providers, r.sub, outcome, es[..|es| - 1])
  }

  lemma EventKeepsHistory(providers: set<ProviderId>, s: Tokens.State, run: nat, e: Tokens.Event, es: seq<Tokens.Event>)
    requires Tokens.Enabled(s, run, e) && HistoryOk(providers, s.runs[run], es)
    ensures HistoryOk(providers, Tokens.Step(s, run, e).runs[run], es + [e])
  {
    assert (es + [e])[..|es + [e]| - 1] == es;
  }

  // ---------------------------------------------------------------- where refreshes come from

  /** Refreshes are only added, each as a refresh starts. */
  ghost predicate Spawned(providers: set<ProviderId>, s: Tokens.State, s': Tokens.State) {
    && s.runs <= s'.runs
    && forall m :: |s.runs| <= m < |s'.runs| ==>
         s'.runs[m].phase == if s'.runs[m].sub.provider in providers then Tokens.Requesting else Tokens.Finishing(Tokens.Refused)
  }

  lemma SpawnedTwice(providers: set<ProviderId>, a: Tokens.State, b: Tokens.State, c: Tokens.State)
    requires Spawned(providers, a, b) && Spawned(providers, b, c)
    ensures Spawned(providers, a, c)
  {
    forall m | |a.runs| <= m < |c.runs|
      ensures c.runs[m].phase == if c.runs[m].sub.provider in providers then Tokens.Requesting else Tokens.Finishing(Tokens.Refused)
    {
      if m < |b.runs| {
        assert c.runs[m] == b.runs[m];
      }
    }
  }

  lemma PerformSpawns(cfg: Config, nowMs: int, x: Effects, e: Event)
    ensures Spawned(cfg.providers, x.tokens, Perform(cfg, nowMs, x, e).tokens)
  {
  }

  lemma {:induction false} PerformAllSpawns(cfg: Config, nowMs: int, x: Effects, events: seq<Event>)
    ensures Spawned(cfg.providers, x.tokens, PerformAll(cfg, nowMs, x, events).tokens)
    decreases |events|
  {
    if events != [] {
      var y := Perform(cfg, nowMs, x, events[0]);
      PerformSpawns(cfg, nowMs, x, events[0]);
      PerformAllSpawns(cfg, nowMs, y, events[1..]);
      hide Perform, Spawned;
      SpawnedTwice(cfg.providers, x.tokens, y.tokens, PerformAll(cfg, nowMs, y, events[1..]).tokens);
    }
  }

  lemma OtherActionsSpawn(cfg: Config, s: System, a: Action)
    requires Enabled(cfg, s, a) && !a.RefreshEvent?
    ensures Spawned(cfg.providers, s.tokens, Next(cfg, s, a).tokens)
  {
    match a {
      case Reply(r, answer) =>
        ResumeGrows(cfg.maxAttempts, s.requests[r].local, answer);
        var q := s.requests[r];
        PerformAllSpawns(cfg, s.nowMs, Effects(s.counts, s.tokens, q.wait), Since(q.local, Resume(cfg.maxAttempts, q.local, answer)));
        hide Resume, PerformAll, Spawned, Fits;
      case ReleaseRelay(r) =>
        var q := s.requests[r];
        PerformAllSpawns(cfg, s.nowMs, Effects(s.counts, s.tokens, q.wait), Since(q.local, Release(q.local)));
        hide PerformAll, Spawned, Release;
      case _ =>
        hide Apply, Resume, PerformAll, Fits;
    }
  }

  // ---------------------------------------------------------------- every run

  ghost predicate AllHistories(cfg: Config, s: System, actions: seq<Action>, n: nat)
    requires n <= |actions|
  {
    && (forall m :: 0 <= m < |s.tokens.runs| ==> HistoryOk(cfg.providers, s.tokens.runs[m], EventsOf(actions, n, m)))
    && (forall m: nat :: m >= |s.tokens.runs| ==> EventsOf(actions, n, m) == [])
  }

  lemma StepOfRefresh(cfg: Config, s: System, run: nat, e: Tokens.Event)
    requires Enabled(cfg, s, RefreshEvent(run, e))
    ensures Tokens.Enabled(s.tokens, run, e)
    ensures Next(cfg, s, RefreshEvent(run, e)).tokens == Tokens.Step(s.tokens, run, e)
    ensures var runs, runs' := s.tokens.runs, Tokens.Step(s.tokens, run, e).runs;
            run < |runs| == |runs'| && forall m :: 0 <= m < |runs| && m != run ==> runs'[m] == runs[m]
  {
    hide Tokens.StepTable, Tokens.NextPhase, Apply, Fits;
  }

  lemma EventsGrow(actions: seq<Action>, n: nat, m: nat)
    requires n < |actions|
    ensures EventsOf(actions, n + 1, m) ==
              EventsOf(actions, n, m) + if actions[n].RefreshEvent? && actions[n].run == m then [actions[n].event] else []
  {
  }

  lemma EventKeepsOne(cfg: Config, s: System, actions: seq<Action>, n: nat, m: nat)
    requires n < |actions| && actions[n].RefreshEvent? && Enabled(cfg, s, actions[n]) && AllHistories(cfg, s, actions, n)
    requires m < |s.tokens.runs|
    ensures |Next(cfg, s, actions[n]).tokens.runs| == |s.tokens.runs|
    ensures HistoryOk(cfg.providers, Next(cfg, s, actions[n]).tokens.runs[m], EventsOf(actions, n + 1, m))
  {
    var run, e := actions[n].run, actions[n].event;
    StepOfRefresh(cfg, s, run, e);
    EventsGrow(actions, n, m);
    hide Next, Enabled, EventsOf, HistoryOk, Tokens.Step, Tokens.Enabled;
    if m == run {
      EventKeepsHistory(cfg.providers, s.tokens, run, e, EventsOf(actions, n, m));
    } else {
      assert EventsOf(actions, n + 1, m) == EventsOf(actions, n, m);
    }
  }

  lemma OtherKeepsOne(cfg: Config, s: System, actions: seq<Action>, n: nat, m: nat)
    requires n < |actions| && !actions[n].RefreshEvent? && Enabled(cfg, s, actions[n]) && AllHistories(cfg, s, actions, n)
    requires m < |Next(cfg, s, actions[n]).tokens.runs|
    ensures |Next(cfg, s, actions[n]).tokens.runs| >= |s.tokens.runs|
    ensures HistoryOk(cfg.providers, Next(cfg, s, actions[n]).tokens.runs[m], EventsOf(actions, n + 1, m))
  {
    OtherActionsSpawn(cfg, s, actions[n]);
    EventsGrow(actions, n, m);
    var s' := Next(cfg, s, actions[n]);
    hide Next, Enabled, EventsOf, HistoryOk;
    assert EventsOf(actions, n + 1, m) == EventsOf(actions, n, m);
    if m < |s.tokens.runs| {
      assert s'.tokens.runs[m] == s.tokens.runs[m];
    } else {
      StartsWithoutHistory(cfg.providers, s'.tokens.runs[m]);
    }
  }

  lemma NothingBeyond(cfg: Config, s: System, actions: seq<Action>, n: nat, m: nat)
    requires n < |actions| && Enabled(cfg, s, actions[n]) && AllHistories(cfg, s, actions, n)
    requires m >= |s.tokens.runs|
    ensures EventsOf(actions, n + 1, m) == []
  {
    EventsGrow(actions, n, m);
    if actions[n].RefreshEvent? {
      StepOfRefresh(cfg, s, actions[n].run, actions[n].event);
    }
    hide Next, Enabled, EventsOf, HistoryOk, Tokens.Step;
  }

  lemma StepKeepsHistories(cfg: Config, s: System, actions: seq<Action>, n: nat)
    requires n < |actions| && Enabled(cfg, s, actions[n]) && AllHistories(cfg, s, actions, n)
    ensures AllHistories(cfg, Next(cfg, s, actions[n]), actions, n + 1)
  {
    var s', n' := Next(cfg, s, actions[n]), n + 1;
    if !actions[n].RefreshEvent? {
      OtherActionsSpawn(cfg, s, actions[n]);
    } else {
      StepOfRefresh(cfg, s, actions[n].run, actions[n].event);
    }
    assert |s'.tokens.runs| >= |s.tokens.runs|;
    forall m: nat | m < |s'.tokens.runs|
      ensures HistoryOk(cfg.providers, s'.tokens.runs[m], EventsOf(actions, n + 1, m))
    {
      hide *;
      if actions[n].RefreshEvent? {
        EventKeepsOne(cfg, s, actions, n, m);
      } else {
        OtherKeepsOne(cfg, s, actions, n, m);
      }
    }
    forall m: nat | m >= |s'.tokens.runs| ensures EventsOf(actions, n', m) == [] {
      hide *;
      NothingBeyond(cfg, s, actions, n, m);
    }
    hide Next, Enabled, EventsOf, HistoryOk, Tokens.Step, Spawned;
  }

  lemma StartsWithoutHistory(providers: set<ProviderId>, r: Tokens.Run)
    requires r.phase == if r.sub.provider in providers then Tokens.Requesting else Tokens.Finishing(Tokens.Refused)
    ensures HistoryOk(providers, r, [])
  {
  }

  lemma RunLength(cfg: Config, states: seq<System>, actions: seq<Action>)
    requires IsRun(cfg, states, actions)
    ensures |states| == |actions| + 1
  {
  }

  lemma NoHistoryYet(cfg: Config, states: seq<System>, actions: seq<Action>)
    requires IsRun(cfg, states, actions)
    ensures AllHistories(cfg, states[0], actions, 0)
  {
  }

  lemma {:induction false} EveryHistoryOk(cfg: Config, states: seq<System>, actions: seq<Action>, n: nat)
    requires IsRun(cfg, states, actions) && n < |states|
    ensures n <= |actions| && AllHistories(cfg, states[n], actions, n)
  {
    hide *;
    RunLength(cfg, states, actions);
    if n == 0 {
      NoHistoryYet(cfg, states, actions);
    } else {
      EveryHistoryOk(cfg, states, actions, n - 1);
      StepOfRun(cfg, states, actions, n);
      StepKeepsHistories(cfg, states[n - 1], actions, n - 1);
    }
  }

  /** Every refresh of every run is where its own events, in this very order, have brought it: granted
      and stored before it has a token; denied, or granted and not stored, and then marked unusable
      before it is refused; the same but not marked before it is broken; refused at once only for a
      provider that is not registered. */
  lemma EveryRunHasItsHistory(cfg: Config, states: seq<System>, actions: seq<Action>, n: nat, m: nat)
    requires IsRun(cfg, states, actions) && n < |states| && m < |states[n].tokens.runs|
    ensures n <= |actions| && HistoryOk(cfg.providers, states[n].tokens.runs[m], EventsOf(actions, n, m))
  {
    EveryHistoryOk(cfg, states, actions, n);
    hide IsRun, HistoryOk, EventsOf;
  }

  lemma {:induction false} HappenedIsListed(actions: seq<Action>, n: nat, m: nat, j: nat)
    requires j < n <= |actions| && actions[j].RefreshEvent? && actions[j].run == m
    ensures actions[j].event in EventsOf(actions, n, m)
  {
    if j < n - 1 {
      HappenedIsListed(actions, n - 1, m, j);
    }
  }

  lemma {:induction false} ListedHappened(actions: seq<Action>, n: nat, m: nat, e: Tokens.Event)
    requires n <= |actions| && e in EventsOf(actions, n, m)
    ensures exists j :: 0 <= j < n && actions[j] == RefreshEvent(m, e)
  {
    if !(actions[n - 1].RefreshEvent? && actions[n - 1].run == m && actions[n - 1].event == e) {
      ListedHappened(actions, n - 1, m, e);
    } else {
      assert actions[n - 1] == RefreshEvent(m, e);
    }
  }

  lemma FailedEndsBadly(providers: set<ProviderId>, sub: Subscription, outcome: Tokens.Outcome, es: seq<Tokens.Event>)
    requires LedTo(providers, sub, outcome, es) && (Tokens.Denied in es || Tokens.StoreFailed in es)
    ensures (outcome == Tokens.Refused && sub.provider in providers && Tokens.Marked in es)
            || (outcome == Tokens.Broken && Tokens.MarkFailed in es)
  {
    if !outcome.Got? && es != [] {
      assert es[|es| - 1] in es;
    }
  }

  /** A refresh that the provider denied, or whose grant could not be stored, settles as refused with
      its row out of every pool; otherwise the marking itself failed. */
  lemma DeniedIsRefused(cfg: Config, states: seq<System>, actions: seq<Action>, n: nat, m: nat, j: nat)
    requires IsRun(cfg, states, actions) && n < |states| && m < |states[n].tokens.runs| && j < n && j < |actions|
    requires actions[j] == RefreshEvent(m, Tokens.Denied) || actions[j] == RefreshEvent(m, Tokens.StoreFailed)
    requires states[n].tokens.runs[m].phase.Settled?
    ensures var run, t := states[n].tokens.runs[m], states[n].table;
            || (run.phase.outcome == Tokens.Refused && run.sub.id in t && t[run.sub.id].status != Active)
            || (run.phase.outcome == Tokens.Broken && exists k :: 0 <= k < n && actions[k] == RefreshEvent(m, Tokens.MarkFailed))
  {
    EveryRunHasItsHistory(cfg, states, actions, n, m);
    SingleFlightEverywhere(cfg, states, actions, n, m);
    HappenedIsListed(actions, n, m, j);
    hide IsRun, EventsOf, LedTo;
    var es := EventsOf(actions, n, m);
    var front := es[..|es| - 1];
    assert es == front + [Tokens.Finally];
    assert actions[j].event in front;
    FailedEndsBadly(cfg.providers, states[n].tokens.runs[m].sub, states[n].tokens.runs[m].phase.outcome, front);
    if states[n].tokens.runs[m].phase.outcome == Tokens.Broken {
      assert Tokens.MarkFailed in es;
      ListedHappened(actions, n, m, Tokens.MarkFailed);
    }
  }

  /** Storing a grant is all of it and nothing else: the row has the new access token, the rotated
      refresh token and the new expiry, and is otherwise as it was; so are all other rows. */
  lemma GrantIsStoredWhole(cfg: Config, states: seq<System>, actions: seq<Action>, n: nat, m: nat)
    requires IsRun(cfg, states, actions) && n < |actions| && actions[n] == RefreshEvent(m, Tokens.Stored)
    ensures m < |states[n].tokens.runs| && states[n].tokens.runs[m].phase.Storing?
    ensures var grant, id := states[n].tokens.runs[m].phase.grant, states[n].tokens.runs[m].sub.id;
            var t, t' := states[n].table, states[n + 1].table;
            && Tokens.Granted(grant) in EventsOf(actions, n, m)
            && id in t && t'.Keys == t.Keys
            && (forall k :: k in t && k != id ==> t'[k] == t[k])
            && t'[id] == Subscription(id, t[id].provider, t[id].pool, t[id].owner, t[id].status,
                                      grant.access, grant.refresh, grant.expiresAtMs)
  {
    StepOfRun(cfg, states, actions, n + 1);
    var s := states[n];
    assert Tokens.Enabled(s.tokens, m, Tokens.Stored);
    EveryRunHasItsHistory(cfg, states, actions, n, m);
    EveryStateOk(cfg, states, actions, n);
    assert RunOk(s.table, cfg.providers, s.tokens.runs[m]);
    hide IsRun, EventsOf, Fits;
  }

  /** Marking takes exactly that row out of `active`. */
  lemma MarkingIsStored(cfg: Config, states: seq<System>, actions: seq<Action>, n: nat, m: nat)
    requires IsRun(cfg, states, actions) && n < |actions| && actions[n] == RefreshEvent(m, Tokens.Marked)
    ensures m < |states[n].tokens.runs|
    ensures var id := states[n].tokens.runs[m].sub.id;
            var t, t' := states[n].table, states[n + 1].table;
            && id in t && t'.Keys == t.Keys
            && (forall k :: k in t && k != id ==> t'[k] == t[k])
            && t'[id] == t[id].(status := Unusable)
  {
    StepOfRun(cfg, states, actions, n + 1);
    var s := states[n];
    EveryStateOk(cfg, states, actions, n);
    assert Tokens.Enabled(s.tokens, m, Tokens.Marked);
    assert RunOk(s.table, cfg.providers, s.tokens.runs[m]);
    hide IsRun, Fits;
  }

  /** Handing a token out without a refresh: `ensureFresh` does so exactly when the expiry parses and
      lies further off than the skew, and then it is the row's own access token; otherwise the caller
      waits for the one refresh outstanding for that subscription. */
  lemma FreshOutlastsSkew(s: Tokens.State, sub: Subscription, nowMs: int, skewMs: int, providers: set<ProviderId>)
    requires Tokens.SingleFlight(s)
    ensures var (s', wait) := Tokens.Ensure(s, sub, nowMs, skewMs, providers);
            if sub.expiresAtMs.Some? && sub.expiresAtMs.value > nowMs + skewMs then
              wait == Tokens.Ready(sub.access) && s' == s
            else
              && wait.OnRun? && wait.run < |s'.runs|
              && s'.runs[wait.run].sub.id == sub.id && !s'.runs[wait.run].phase.Settled?
              && sub.id in s'.inflight && s'.inflight[sub.id] == wait.run
              && (sub.id !in s.inflight ==> s'.runs[wait.run].sub == sub)
  {
    Tokens.JoinKeepsSingleFlight(s, sub, providers);
  }
}
