/** The single-flight token lifecycle. */
module Tokens {
  import opened Domain
  import opened SubscriptionTable

  /** How the promise of a refresh settles: a token, a refused refresh, or a failed store write. */
  datatype Outcome = Got(token: Token) | Refused | Broken

  /** Where one refresh is.  `Finishing` is between the end of the refresh and its `finally`. */
  datatype Phase =
    | Requesting
    | Storing(grant: Grant)
    | Marking
    | Finishing(outcome: Outcome)
    | Settled(outcome: Outcome)

  /** One refresh, started from the caller's own snapshot of the subscription. */
  datatype Run = Run(sub: Subscription, phase: Phase)

  /** The in-flight map and all the refreshes ever started; a run's index names its promise. */
  datatype State = State(inflight: map<SubId, nat>, runs: seq<Run>)

  /** What a caller waits for. */
  datatype Wait = Ready(token: Token) | OnRun(run: nat)

  datatype Event =
    | Granted(grant: Grant)
    | Denied
    | Stored
    | StoreFailed
    | Marked
    | MarkFailed
    | Finally

  function FirstPhase(sub: Subscription, providers: set<ProviderId>): Phase {
    if sub.provider in providers then Requesting else Finishing(Refused)
  }

  function Join(s: State, sub: Subscription, providers: set<ProviderId>): (State, nat) {
    if sub.id in s.inflight then (s, s.inflight[sub.id])
    else (State(s.inflight[sub.id := |s.runs|], s.runs + [Run(sub, FirstPhase(sub, providers))]), |s.runs|)
  }

  predicate StillFresh(sub: Subscription, nowMs: int, skewMs: int) {
    sub.expiresAtMs.Some? && sub.expiresAtMs.value - nowMs > skewMs
  }

  function Ensure(s: State, sub: Subscription, nowMs: int, skewMs: int, providers: set<ProviderId>): (State, Wait) {
    if StillFresh(sub, nowMs, skewMs) then (s, Ready(sub.access))
    else var (s', run) := Join(s, sub, providers); (s', OnRun(run))
  }

  predicate Enabled(s: State, run: nat, e: Event) {
    run < |s.runs| &&
    match s.runs[run].phase
    case Requesting => e.Granted? || e.Denied?
    case Storing(_) => e.Stored? || e.StoreFailed?
    case Marking => e.Marked? || e.MarkFailed?
    case Finishing(_) => e.Finally?
    case Settled(_) => false
  }

  function NextPhase(p: Phase, e: Event): Phase {
    match (p, e)
    case (Requesting, Granted(grant)) => Storing(grant)
    case (Requesting, Denied) => Marking
    case (Storing(grant), Stored) => Finishing(Got(grant.access))
    case (Storing(_), StoreFailed) => Marking
    case (Marking, Marked) => Finishing(Refused)
    case (Marking, MarkFailed) => Finishing(Broken)
    case (Finishing(o), Finally) => Settled(o)
    case _ => p
  }

  function Step(s: State, run: nat, e: Event): State
    requires run < |s.runs|
  {
    var r := s.runs[run];
    State(if e.Finally? then s.inflight - {r.sub.id} else s.inflight,
          s.runs[run := r.(phase := NextPhase(r.phase, e))])
  }

  /** The store write that happens with the event. */
  function StepTable(t: Table, r: Run, e: Event): Table {
    match (r.phase, e)
    case (Storing(grant), Stored) => WithTokens(t, r.sub.id, grant)
    case (Marking, Marked) => WithUnusable(t, r.sub.id)
    case _ => t
  }

  /** The manager; each method is one stretch of code between two awaits. */
  class TokenManager {
    const providers: set<ProviderId>
    const skewMs: int
    const store: SubscriptionRepository
    var inflight: map<SubId, nat>
    var runs: seq<Run>

    constructor (store: SubscriptionRepository, providers: set<ProviderId>, skewMs: int)
      ensures Abstract() == State(map[], [])
      ensures this.store == store && this.providers == providers && this.skewMs == skewMs
    {
      this.store := store;
      this.providers := providers;
      this.skewMs := skewMs;
      inflight := map[];
      runs := [];
    }

    function Abstract(): State
      reads this
    {
      State(inflight, runs)
    }

    method EnsureFresh(sub: Subscription, nowMs: int) returns (wait: Wait)
      modifies this
      ensures (Abstract(), wait) == Ensure(old(Abstract()), sub, nowMs, skewMs, providers)
    {
      if sub.expiresAtMs.Some? {
        var remaining := sub.expiresAtMs.value - nowMs;
        if remaining > skewMs {
          return Ready(sub.access);
        }
      }
      var run := Refresh(sub);
      return OnRun(run);
    }

    method RefreshNow(sub: Subscription) returns (run: nat)
      modifies this
      ensures (Abstract(), run) == Join(old(Abstract()), sub, providers)
    {
      run := Refresh(sub);
    }

    method Refresh(sub: Subscription) returns (run: nat)
      modifies this
      ensures (Abstract(), run) == Join(old(Abstract()), sub, providers)
    {
      if sub.id in inflight {
        return inflight[sub.id];
      }
      run := |runs|;
      runs := runs + [Run(sub, if sub.provider in providers then Requesting else Finishing(Refused))];
      inflight := inflight[sub.id := run];
    }

    /** Resumes one refresh with what it was waiting for. */
    method Resume(run: nat, e: Event)
      requires Enabled(Abstract(), run, e)
      modifies this, store
      ensures Abstract() == Step(old(Abstract()), run, e)
      ensures store.rows == StepTable(old(store.rows), old(runs)[run], e)
    {
      var r := runs[run];
      match r.phase {
        case Requesting =>
          runs := runs[run := r.(phase := if e.Granted? then Storing(e.grant) else Marking)];
        case Storing(grant) =>
          if e.Stored? {
            store.UpdateTokens(r.sub.id, grant);
            runs := runs[run := r.(phase := Finishing(Got(grant.access)))];
          } else {
            runs := runs[run := r.(phase := Marking)];
          }
        case Marking =>
          if e.Marked? {
            store.MarkUnusable(r.sub.id);
            runs := runs[run := r.(phase := Finishing(Refused))];
          } else {
            runs := runs[run := r.(phase := Finishing(Broken))];
          }
        case Finishing(outcome) =>
          inflight := inflight - {r.sub.id};
          runs := runs[run := r.(phase := Settled(outcome))];
      }
    }
  }

  // ---------------------------------------------------------------- single flight

  /** The in-flight map names exactly the unsettled runs. */
  ghost predicate SingleFlight(s: State) {
    && (forall id :: id in s.inflight ==>
          s.inflight[id] < |s.runs| && s.runs[s.inflight[id]].sub.id == id && !s.runs[s.inflight[id]].phase.Settled?)
    && (forall n :: 0 <= n < |s.runs| && !s.runs[n].phase.Settled? ==>
          s.runs[n].sub.id in s.inflight && s.inflight[s.runs[n].sub.id] == n)
  }

  /** At most one refresh of a subscription is outstanding. */
  lemma AtMostOneOutstanding(s: State, m: nat, n: nat)
    requires SingleFlight(s)
    requires m < |s.runs| && n < |s.runs| && s.runs[m].sub.id == s.runs[n].sub.id
    requires !s.runs[m].phase.Settled? && !s.runs[n].phase.Settled?
    ensures m == n
  {
  }

  lemma JoinKeepsSingleFlight(s: State, sub: Subscription, providers: set<ProviderId>)
    requires SingleFlight(s)
    ensures var (s', run) := Join(s, sub, providers);
            && SingleFlight(s') && run < |s'.runs| && s'.runs[run].sub.id == sub.id && !s'.runs[run].phase.Settled?
            && s.runs <= s'.runs
  {
  }

  lemma StepKeepsSingleFlight(s: State, run: nat, e: Event)
    requires SingleFlight(s) && Enabled(s, run, e)
    ensures SingleFlight(Step(s, run, e))
    ensures e.Finally? ==> s.runs[run].sub.id !in Step(s, run, e).inflight
  {
    var s' := Step(s, run, e);
    if !e.Finally? {
      assert !s'.runs[run].phase.Settled?;
    }
  }
}
