/** The background prober: a timer with an overlap guard, and the sweep it runs. */
module Prober {
  import opened Domain
  import opened LoadLog
  import opened SubscriptionTable

  // ---------------------------------------------------------------- deciding

  predicate ShouldSkip(latest: Option<Snapshot>, nowMs: int, threshold: int) {
    && latest.Some?
    && ((latest.value.sample.cooldownUntil.Some? && latest.value.sample.cooldownUntil.value > nowMs as real)
        || nowMs - latest.value.sampledAt < threshold)
  }

  predicate IsProbe(s: Snapshot, id: SubId) { s.source.Probe? && s.id == id }

  /** Any two probe snapshots of one subscription are at least `threshold` apart. */
  ghost predicate Spaced(threshold: int, log: Log) {
    forall i, j :: 0 <= i < j < |log| && log[i].source.Probe? && IsProbe(log[j], log[i].id) ==>
      log[i].sampledAt + threshold <= log[j].sampledAt
  }

  /** Every probe snapshot of the subscription is at least `threshold` older than `nowMs`. */
  ghost predicate Quiet(threshold: int, log: Log, id: SubId, nowMs: int) {
    forall s :: s in log && IsProbe(s, id) ==> s.sampledAt + threshold <= nowMs
  }

  /** The subscription may be probed: its latest snapshot is not cooling at `nowMs`, and none of its
      snapshots is younger than `threshold`. */
  ghost predicate Idle(threshold: int, log: Log, id: SubId, nowMs: int) {
    && (forall s :: s in log && s.id == id ==> s.sampledAt + threshold <= nowMs)
    && exists latest :: IsLatest(log, id, latest)
         && (latest.Some? && latest.value.sample.cooldownUntil.Some? ==> latest.value.sample.cooldownUntil.value <= nowMs as real)
  }

  lemma IdleIsQuiet(threshold: int, log: Log, id: SubId, latest: Option<Snapshot>, nowMs: int)
    requires IsLatest(log, id, latest) && !ShouldSkip(latest, nowMs, threshold)
    ensures Idle(threshold, log, id, nowMs) && Quiet(threshold, log, id, nowMs)
  {
  }

  lemma ProbeStaysSpaced(threshold: int, log: Log, s: Snapshot, nowMs: int)
    requires Spaced(threshold, log) && Quiet(threshold, log, s.id, nowMs) && nowMs <= s.sampledAt
    ensures Spaced(threshold, log + [s])
  {
  }

  // ---------------------------------------------------------------- the worker

  /** `timer` is the interval the worker remembers; `live` are the intervals the host still fires, of
      the `made` ones that were ever set. */
  datatype Worker = Worker(timer: Option<nat>, running: bool, live: set<nat>, made: nat)

  const IDLE_WORKER := Worker(None, false, {}, 0)

  function Started(w: Worker): Worker {
    if w.timer.Some? then w else w.(timer := Some(w.made), live := w.live + {w.made}, made := w.made + 1)
  }

  function Stopped(w: Worker): Worker {
    if w.timer.None? then w else w.(timer := None, live := w.live - {w.timer.value})
  }

  /** Nothing fires but the interval the worker remembers. */
  ghost predicate TimerOk(w: Worker) {
    && w.live == (if w.timer.Some? then {w.timer.value} else {})
    && (w.timer.Some? ==> w.timer.value < w.made)
  }

  /** The worker object. `BeginTick` and `EndTick` are the code before and after the sweep. */
  class LoadProbeWorker {
    var timer: Option<nat>
    var running: bool
    var live: set<nat>
    var made: nat

    constructor ()
      ensures Abstract() == IDLE_WORKER
    {
      timer, running, live, made := None, false, {}, 0;
    }

    function Abstract(): Worker
      reads this
    {
      Worker(timer, running, live, made)
    }

    /** The host's `setInterval` and `clearInterval`. */
    method SetInterval() returns (id: nat)
      modifies this`live, this`made
      ensures id == old(made) && live == old(live) + {id} && made == old(made) + 1
    {
      id := made;
      live := live + {id};
      made := made + 1;
    }

    method ClearInterval(id: nat)
      modifies this`live
      ensures live == old(live) - {id}
    {
      live := live - {id};
    }

    method Start()
      modifies this
      ensures Abstract() == Started(old(Abstract()))
      ensures old(TimerOk(Abstract())) ==> TimerOk(Abstract()) && |live| == 1 && (old(live) != {} ==> live == old(live))
    {
      if timer.Some? {
        return;
      }
      var id := SetInterval();
      timer := Some(id);
    }

    method Stop()
      modifies this
      ensures Abstract() == Stopped(old(Abstract()))
      ensures old(TimerOk(Abstract())) ==> TimerOk(Abstract()) && live == {}
    {
      if timer.Some? {
        ClearInterval(timer.value);
        timer := None;
      }
    }

    method BeginTick() returns (sweeps: bool)
      modifies this
      ensures Abstract() == old(Abstract()).(running := true)
      ensures sweeps == !old(running)
    {
      if running {
        return false;
      }
      running := true;
      return true;
    }

    method EndTick()
      modifies this
      ensures Abstract() == old(Abstract()).(running := false)
    {
      running := false;
    }
  }

  // ---------------------------------------------------------------- one sweep, as the code writes it

  ghost predicate PassiveSince(log: Log, later: Log) {
    log <= later && forall i :: |log| <= i < |later| ==> later[i].source.Passive?
  }

  lemma PassiveKeeps(threshold: int, log: Log, later: Log)
    requires PassiveSince(log, later)
    ensures Spaced(threshold, log) ==> Spaced(threshold, later)
    ensures forall id, nowMs :: Quiet(threshold, log, id, nowMs) ==> Quiet(threshold, later, id, nowMs)
  {
    forall s | s in later && s.source.Probe? ensures s in log {
      var i :| 0 <= i < |later| && later[i] == s;
      assert i < |log|;
    }
  }

  class LoadMonitorService {
    const loads: LoadRepository
    const threshold: int
    var clock: int

    constructor (loads: LoadRepository, threshold: int, clock: int)
      ensures this.loads == loads && this.threshold == threshold && this.clock == clock
    {
      this.loads := loads;
      this.threshold := threshold;
      this.clock := clock;
    }

    /** What happens elsewhere during an await: time passes, proxied responses are harvested.  What
        was spaced and quiet stays so. */
    method Await(ghost id: SubId, ghost nowMs: int) returns (failed: bool)
      requires Spaced(threshold, loads.log)
      modifies this, loads
      ensures old(clock) <= clock && old(loads.log) <= loads.log && Spaced(threshold, loads.log)
      ensures old(Quiet(threshold, loads.log, id, nowMs)) ==> Quiet(threshold, loads.log, id, nowMs)
    {
      var elapsed: int, count: int := *, *;
      if elapsed > 0 {
        clock := clock + elapsed;
      }
      for i := 0 to if count < 0 then 0 else count
        invariant old(clock) <= clock && PassiveSince(old(loads.log), loads.log)
      {
        var other: SubId, at: int, sample: Sample := *, *, *;
        loads.InsertSnapshot(Snapshot(other, at, Passive, sample));
      }
      PassiveKeeps(threshold, old(loads.log), loads.log);
      failed := *;
    }

    /** The body of the loop for one subscription; any error ends it. */
    method ProbeOne(id: SubId, nowMs: int)
      requires nowMs <= clock && Spaced(threshold, loads.log)
      modifies this, loads
      ensures old(clock) <= clock && old(loads.log) <= loads.log && Spaced(threshold, loads.log)
    {
      var latest := loads.LatestBySubscription(id);
      ghost var idle := !ShouldSkip(latest, nowMs, threshold);
      assert idle ==> Quiet(threshold, loads.log, id, nowMs) by {
        if idle {
          IdleIsQuiet(threshold, loads.log, id, latest, nowMs);
        }
      }
      var failed := Await(id, nowMs);
      if failed || ShouldSkip(latest, nowMs, threshold) {
        return;
      }
      failed := Await(id, nowMs); // the token
      if failed {
        return;
      }
      failed := Await(id, nowMs); // the probe
      if failed {
        return;
      }
      var sample: Sample := *;
      var snapshot := Snapshot(id, clock, Probe, sample);
      failed := Await(id, nowMs); // the queue of the database
      if failed {
        return;
      }
      ProbeStaysSpaced(threshold, loads.log, snapshot, nowMs);
      loads.InsertSnapshot(snapshot);
    }

    /** One sweep, whatever is harvested meanwhile and whatever fails, keeps the spacing. */
    method ProbeIdle(ids: seq<SubId>)
      requires Spaced(threshold, loads.log)
      modifies this, loads
      ensures old(clock) <= clock && old(loads.log) <= loads.log && Spaced(threshold, loads.log)
    {
      var nowMs := clock;
      for i := 0 to |ids|
        invariant nowMs <= clock && old(loads.log) <= loads.log && Spaced(threshold, loads.log)
      {
        ProbeOne(ids[i], nowMs);
      }
    }
  }

  // ---------------------------------------------------------------- every schedule

  /** Where a sweep waits. */
  datatype Stage =
    | Listing
    | Reading(id: SubId, rest: seq<SubId>)
    | Deciding(id: SubId, latest: Option<Snapshot>, rest: seq<SubId>)
    | FetchingToken(id: SubId, rest: seq<SubId>)
    | Probing(id: SubId, rest: seq<SubId>)
    | Persisting(snapshot: Snapshot, rest: seq<SubId>)
    | Finishing
    | Over

  /** `read` is the log as the sweep last read it. */
  datatype Sweep = Sweep(nowMs: int, listed: Option<seq<SubId>>, visited: seq<SubId>, read: Log, stage: Stage)

  /** How an await of a sweep ends. */
  datatype Answer =
    | Listed(ids: seq<SubId>)
    | LatestIs(latest: Option<Snapshot>)
    | Done
    | SampleIs(sample: Sample)
    | Rejected

  datatype State = State(clock: int, log: Log, worker: Worker, sweeps: seq<Sweep>, table: Table)

  datatype Action =
    | Elapse(ms: nat)
    | Start
    | Stop
    | Tick
    | Harvest(snapshot: Snapshot)
    | Change(op: Op)
    | Resume(sweep: nat, answer: Answer)

  /** The top of the loop over the listed ids. */
  function Visit(sw: Sweep, rest: seq<SubId>): Sweep {
    if rest == [] then sw.(stage := Finishing)
    else sw.(visited := sw.visited + [rest[0]], stage := Reading(rest[0], rest[1..]))
  }

  function ResumeSweep(threshold: int, clock: int, log: Log, sw: Sweep, a: Answer): Sweep {
    match sw.stage
    case Listing => if a.Listed? then Visit(sw.(listed := Some(a.ids)), a.ids) else sw.(stage := Finishing)
    case Reading(id, rest) =>
      if a.LatestIs? then sw.(read := log, stage := Deciding(id, a.latest, rest)) else Visit(sw, rest)
    case Deciding(id, latest, rest) =>
      if ShouldSkip(latest, sw.nowMs, threshold) then Visit(sw, rest) else sw.(stage := FetchingToken(id, rest))
    case FetchingToken(id, rest) => if a.Done? then sw.(stage := Probing(id, rest)) else Visit(sw, rest)
    case Probing(id, rest) =>
      if a.SampleIs? then sw.(stage := Persisting(Snapshot(id, clock, Probe, a.sample), rest)) else Visit(sw, rest)
    case Persisting(_, rest) => Visit(sw, rest)
    case Finishing => sw.(stage := Over)
    case Over => sw
  }

  function IdsOf(rows: seq<Subscription>): seq<SubId> {
    if rows == [] then [] else [rows[0].id] + IdsOf(rows[1..])
  }

  /** What the sweep's listing may give: the ids of the active rows of the one provider it probes. */
  ghost predicate ListsIds(t: Table, ids: seq<SubId>) {
    exists found :: ListsActive(t, Anthropic, found) && ids == IdsOf(found)
  }

  /** A tick comes from an interval that still fires; a harvested snapshot was stamped now or earlier. */
  ghost predicate Enabled(s: State, a: Action) {
    match a
    case Tick => s.worker.live != {}
    case Harvest(snapshot) => snapshot.source.Passive? && snapshot.sampledAt <= s.clock
    case Resume(i, answer) =>
      && i < |s.sweeps| && !s.sweeps[i].stage.Over?
      && (s.sweeps[i].stage.Listing? && answer.Listed? ==> ListsIds(s.table, answer.ids))
      && (s.sweeps[i].stage.Reading? && answer.LatestIs? ==> IsLatest(s.log, s.sweeps[i].stage.id, answer.latest))
    case _ => true
  }

  ghost function Next(threshold: int, s: State, a: Action): State
    requires Enabled(s, a)
  {
    match a
    case Elapse(ms) => s.(clock := s.clock + ms)
    case Start => s.(worker := Started(s.worker))
    case Stop => s.(worker := Stopped(s.worker))
    case Tick =>
      if s.worker.running then s
      else s.(worker := s.worker.(running := true), sweeps := s.sweeps + [Sweep(s.clock, None, [], [], Listing)])
    case Harvest(snapshot) => s.(log := s.log + [snapshot])
    case Change(op) => s.(table := Apply(s.table, op))
    case Resume(i, answer) =>
      var sw := s.sweeps[i];
      var s' := s.(sweeps := s.sweeps[i := ResumeSweep(threshold, s.clock, s.log, sw, answer)]);
      if sw.stage.Persisting? && answer.Done? then s'.(log := s.log + [sw.stage.snapshot])
      else if sw.stage.Finishing? then s'.(worker := s.worker.(running := false))
      else s'
  }

  ghost predicate IsRun(threshold: int, states: seq<State>, actions: seq<Action>) {
    && |states| == |actions| + 1
    && states[0].log == [] && states[0].worker == IDLE_WORKER && states[0].sweeps == [] && states[0].table == map[]
    && forall i :: 0 <= i < |actions| ==> Enabled(states[i], actions[i]) && states[i + 1] == Next(threshold, states[i], actions[i])
  }

  /** The sweep under way, if there is one, is the last one started. */
  ghost predicate GuardOk(worker: Worker, sweeps: seq<Sweep>) {
    && (forall i :: 0 <= i < |sweeps| - 1 ==> sweeps[i].stage.Over?)
    && (worker.running <==> sweeps != [] && !sweeps[|sweeps| - 1].stage.Over?)
  }

  ghost predicate ProbeOk(threshold: int, log: Log, sw: Sweep, id: SubId) {
    && Quiet(threshold, log, id, sw.nowMs)
    && sw.read <= log && Idle(threshold, sw.read, id, sw.nowMs)
  }

  ghost predicate SweepOk(threshold: int, log: Log, sw: Sweep) {
    match sw.stage
    case Deciding(id, latest, _) => !ShouldSkip(latest, sw.nowMs, threshold) ==> ProbeOk(threshold, log, sw, id)
    case FetchingToken(id, _) => ProbeOk(threshold, log, sw, id)
    case Probing(id, _) => ProbeOk(threshold, log, sw, id)
    case Persisting(p, _) => p.source.Probe? && ProbeOk(threshold, log, sw, p.id) && sw.nowMs <= p.sampledAt
    case _ => true
  }

  /** A sweep goes through the listed ids in order. */
  ghost predicate VisitsOk(sw: Sweep) {
    match sw.stage
    case Listing => sw.listed.None? && sw.visited == []
    case Finishing => sw.visited == if sw.listed.Some? then sw.listed.value else []
    case Over => sw.visited == if sw.listed.Some? then sw.listed.value else []
    case _ => sw.listed == Some(sw.visited + sw.stage.rest)
  }

  ghost predicate Inv(threshold: int, s: State) {
    && GuardOk(s.worker, s.sweeps)
    && TimerOk(s.worker) && WellFormed(s.table)
    && Spaced(threshold, s.log)
    && forall i :: 0 <= i < |s.sweeps| ==>
         VisitsOk(s.sweeps[i]) && SweepOk(threshold, s.log, s.sweeps[i]) && s.sweeps[i].nowMs <= s.clock
  }

  lemma VisitOk(sw: Sweep, rest: seq<SubId>)
    requires sw.listed == Some(sw.visited + rest)
    ensures VisitsOk(Visit(sw, rest))
  {
    if rest != [] {
      assert sw.visited + [rest[0]] + rest[1..] == sw.visited + rest;
    }
  }

  lemma ResumedVisits(threshold: int, clock: int, log: Log, sw: Sweep, answer: Answer)
    requires VisitsOk(sw)
    ensures VisitsOk(ResumeSweep(threshold, clock, log, sw, answer))
  {
    match sw.stage {
      case Listing =>
        if answer.Listed? {
          assert sw.visited + answer.ids == answer.ids;
          VisitOk(sw.(listed := Some(answer.ids)), answer.ids);
        }
      case Finishing =>
      case Over =>
      case _ => VisitOk(sw, sw.stage.rest);
    }
  }

  lemma ResumedOk(threshold: int, s: State, i: nat, answer: Answer)
    requires Inv(threshold, s) && Enabled(s, Resume(i, answer))
    ensures var s' := Next(threshold, s, Resume(i, answer));
            VisitsOk(s'.sweeps[i]) && SweepOk(threshold, s'.log, s'.sweeps[i]) && Spaced(threshold, s'.log)
  {
    var sw := s.sweeps[i];
    assert VisitsOk(sw) && SweepOk(threshold, s.log, sw) && sw.nowMs <= s.clock;
    ResumedVisits(threshold, s.clock, s.log, sw, answer);
    hide VisitsOk, Inv, Spaced, Quiet, Idle;
    if sw.stage.Reading? && answer.LatestIs? && !ShouldSkip(answer.latest, sw.nowMs, threshold) {
      IdleIsQuiet(threshold, s.log, sw.stage.id, answer.latest, sw.nowMs);
    }
    if sw.stage.Persisting? {
      ProbeStaysSpaced(threshold, s.log, sw.stage.snapshot, sw.nowMs);
    }
  }

  lemma ChangeEvolves(t: Table, op: Op)
    requires WellFormed(t)
    ensures WellFormed(Apply(t, op)) && Evolves(t, Apply(t, op))
  {
    RowsEvolve(t, [op]);
    assert ApplyAll(t, [op][..0]) == t;
  }

  lemma HarvestKeeps(threshold: int, s: State, snapshot: Snapshot)
    requires Inv(threshold, s) && Enabled(s, Harvest(snapshot))
    ensures Inv(threshold, Next(threshold, s, Harvest(snapshot)))
  {
    PassiveKeeps(threshold, s.log, s.log + [snapshot]);
    hide Quiet, Idle, Spaced, VisitsOk, GuardOk, TimerOk, ShouldSkip;
  }

  /** A row more in the log, of whatever kind, takes nothing from a sweep that is past its checks of
      other subscriptions; with one sweep at a time there is none. */
  lemma RestIsOver(threshold: int, s: State, i: nat, answer: Answer)
    requires Inv(threshold, s) && Enabled(s, Resume(i, answer))
    ensures forall k :: 0 <= k < |s.sweeps| && k != i ==> s.sweeps[k].stage.Over?
    ensures i == |s.sweeps| - 1 && s.worker.running
  {
    hide Spaced, SweepOk, VisitsOk;
  }

  lemma ResumeKeeps(threshold: int, s: State, i: nat, answer: Answer)
    requires Inv(threshold, s) && Enabled(s, Resume(i, answer))
    ensures Inv(threshold, Next(threshold, s, Resume(i, answer)))
  {
    ResumedOk(threshold, s, i, answer);
    RestIsOver(threshold, s, i, answer);
    ResumeGuards(threshold, s, i, answer);
    var s' := Next(threshold, s, Resume(i, answer));
    forall k | 0 <= k < |s'.sweeps|
      ensures VisitsOk(s'.sweeps[k]) && SweepOk(threshold, s'.log, s'.sweeps[k]) && s'.sweeps[k].nowMs <= s'.clock
    {
      assert VisitsOk(s.sweeps[k]) && SweepOk(threshold, s.log, s.sweeps[k]) && s.sweeps[k].nowMs <= s.clock;
      hide Spaced, VisitsOk, Quiet, Idle, ShouldSkip, GuardOk, TimerOk;
    }
    hide Spaced, VisitsOk, SweepOk, ShouldSkip, GuardOk, TimerOk, ResumeSweep;
  }

  lemma ResumeGuards(threshold: int, s: State, i: nat, answer: Answer)
    requires Inv(threshold, s) && Enabled(s, Resume(i, answer))
    ensures var s' := Next(threshold, s, Resume(i, answer));
            GuardOk(s'.worker, s'.sweeps) && TimerOk(s'.worker) && s'.sweeps[i].nowMs == s.sweeps[i].nowMs
  {
    hide Spaced, SweepOk, VisitsOk, ShouldSkip;
  }

  lemma NextKeeps(threshold: int, s: State, a: Action)
    requires Inv(threshold, s) && Enabled(s, a)
    ensures Inv(threshold, Next(threshold, s, a))
  {
    match a {
      case Harvest(snapshot) => HarvestKeeps(threshold, s, snapshot);
      case Resume(i, answer) => ResumeKeeps(threshold, s, i, answer);
      case Change(op) =>
        ChangeEvolves(s.table, op);
        hide Spaced, SweepOk, VisitsOk, GuardOk, TimerOk, Apply;
      case Tick =>
        hide Spaced, Apply, ResumeSweep;
      case _ =>
        hide Spaced, SweepOk, VisitsOk, Apply, ResumeSweep;
    }
  }

  lemma {:induction false} EveryStateOk(threshold: int, states: seq<State>, actions: seq<Action>, n: nat)
    requires IsRun(threshold, states, actions) && n < |states|
    ensures Inv(threshold, states[n])
  {
    if n > 0 {
      EveryStateOk(threshold, states, actions, n - 1);
      hide Inv, Next, Enabled;
      NextKeeps(threshold, states[n - 1], actions[n - 1]);
      assert states[n - 1 + 1] == Next(threshold, states[n - 1], actions[n - 1]);
    }
  }

  /** Probe spacing: in every state of every run of ticks, stops, restarts, failures and harvests,
      two probe snapshots of one subscription are at least `threshold` apart. */
  lemma ProbesAreSpaced(threshold: int, states: seq<State>, actions: seq<Action>, n: nat, i: nat, j: nat)
    requires IsRun(threshold, states, actions) && n < |states|
    requires i < j < |states[n].log| && states[n].log[i].source.Probe? && IsProbe(states[n].log[j], states[n].log[i].id)
    ensures states[n].log[i].sampledAt + threshold <= states[n].log[j].sampledAt
  {
    EveryStateOk(threshold, states, actions, n);
  }

  /** Only idle subscriptions are probed: whenever a sweep has a probe under way, the log it had read
      showed no snapshot of that subscription younger than `threshold` at the start of the sweep,
      and no cooldown in force in the latest one. */
  lemma OnlyIdleAreProbed(threshold: int, states: seq<State>, actions: seq<Action>, n: nat, i: nat)
    requires IsRun(threshold, states, actions) && n < |states|
    requires i < |states[n].sweeps| && states[n].sweeps[i].stage.Probing?
    ensures var sw := states[n].sweeps[i];
            sw.read <= states[n].log && Idle(threshold, sw.read, sw.stage.id, sw.nowMs) && sw.nowMs <= states[n].clock
  {
    EveryStateOk(threshold, states, actions, n);
    assert SweepOk(threshold, states[n].log, states[n].sweeps[i]);
  }

  /** The overlap guard: in every state at most one sweep is under way, and none is when the worker
      says it is not running. */
  lemma OneSweepAtATime(threshold: int, states: seq<State>, actions: seq<Action>, n: nat, i: nat, j: nat)
    requires IsRun(threshold, states, actions) && n < |states|
    requires i < |states[n].sweeps| && j < |states[n].sweeps|
    requires !states[n].sweeps[i].stage.Over? && !states[n].sweeps[j].stage.Over?
    ensures i == j && states[n].worker.running
  {
    EveryStateOk(threshold, states, actions, n);
  }

  /** However often the worker is started, at most one interval fires, and it is the one that a stop
      would clear. */
  lemma OneInterval(threshold: int, states: seq<State>, actions: seq<Action>, n: nat)
    requires IsRun(threshold, states, actions) && n < |states|
    ensures |states[n].worker.live| <= 1
    ensures states[n].worker.timer.None? ==> states[n].worker.live == {}
    ensures Stopped(states[n].worker).live == {}
  {
    EveryStateOk(threshold, states, actions, n);
  }

  /** One failing subscription does not stop a sweep: a finished sweep whose listing succeeded has
      visited every listed id, in order. */
  lemma SweepVisitsAll(threshold: int, states: seq<State>, actions: seq<Action>, n: nat, i: nat)
    requires IsRun(threshold, states, actions) && n < |states|
    requires i < |states[n].sweeps| && states[n].sweeps[i].stage.Over? && states[n].sweeps[i].listed.Some?
    ensures states[n].sweeps[i].visited == states[n].sweeps[i].listed.value
  {
    EveryStateOk(threshold, states, actions, n);
  }

  // ---------------------------------------------------------------- only active rows are swept

  lemma StepOfRun(threshold: int, states: seq<State>, actions: seq<Action>, k: nat)
    requires IsRun(threshold, states, actions) && 0 < k < |states|
    ensures k - 1 < |actions| && Inv(threshold, states[k - 1])
    ensures Enabled(states[k - 1], actions[k - 1]) && states[k] == Next(threshold, states[k - 1], actions[k - 1])
  {
    EveryStateOk(threshold, states, actions, k - 1);
    hide Inv, Enabled, Next;
    assert states[k - 1 + 1] == Next(threshold, states[k - 1], actions[k - 1]);
  }

  lemma StepEvolves(threshold: int, s: State, a: Action)
    requires Inv(threshold, s) && Enabled(s, a)
    ensures Evolves(s.table, Next(threshold, s, a).table)
  {
    if a.Change? {
      ChangeEvolves(s.table, a.op);
    }
    hide Spaced, SweepOk, VisitsOk, ResumeSweep, Apply;
  }

  lemma EvolvesOn(a: Table, b: Table, c: Table)
    requires Evolves(a, b) && Evolves(b, c)
    ensures Evolves(a, c)
  {
  }

  lemma EvolvesAlone(t: Table)
    ensures Evolves(t, t)
  {
  }

  lemma {:induction false} TableEvolves(threshold: int, states: seq<State>, actions: seq<Action>, d: nat, n: nat)
    requires IsRun(threshold, states, actions) && d <= n < |states|
    ensures Evolves(states[d].table, states[n].table)
  {
    hide *;
    if d < n {
      TableEvolves(threshold, states, actions, d, n - 1);
      StepOfRun(threshold, states, actions, n);
      StepEvolves(threshold, states[n - 1], actions[n - 1]);
      EvolvesOn(states[d].table, states[n - 1].table, states[n].table);
    } else {
      EvolvesAlone(states[n].table);
    }
  }

  lemma {:induction false} IdsAreOfRows(rows: seq<Subscription>)
    ensures forall id :: id in IdsOf(rows) ==> exists s :: s in rows && s.id == id
  {
    if rows != [] {
      IdsAreOfRows(rows[1..]);
      forall id | id in IdsOf(rows) ensures exists s :: s in rows && s.id == id {
        if id == rows[0].id {
          assert rows[0] in rows;
        } else {
          assert id in IdsOf(rows[1..]);
          var s :| s in rows[1..] && s.id == id;
          assert s in rows;
        }
      }
    }
  }

  /** Every id of the list that the table holds is active there, and one of Anthropic's. */
  ghost predicate NoneInactive(t: Table, ids: seq<SubId>) {
    forall id :: id in ids && id in t ==> t[id].status == Active && t[id].provider == Anthropic
  }

  lemma ListedWereActive(t: Table, now: Table, ids: seq<SubId>)
    requires Evolves(t, now) && ListsIds(now, ids)
    ensures NoneInactive(t, ids)
  {
    var found: seq<Subscription> :| ListsActive(now, Anthropic, found) && ids == IdsOf(found);
    IdsAreOfRows(found);
    forall id | id in ids && id in t ensures t[id].status == Active && t[id].provider == Anthropic {
      var s :| s in found && s.id == id;
      assert now[s.id] == s;
    }
  }

  /** The sweep has not begun, or still waits for its listing. */
  predicate Unlisted(s: State, i: nat) {
    i < |s.sweeps| ==> s.sweeps[i].stage.Listing?
  }

  ghost predicate ListOk(t: Table, sw: Sweep) {
    sw.listed.Some? ==> NoneInactive(t, sw.listed.value)
  }

  lemma UnlistedIsOk(threshold: int, s: State, i: nat, t: Table)
    requires Inv(threshold, s) && i < |s.sweeps| && Unlisted(s, i)
    ensures ListOk(t, s.sweeps[i])
  {
    assert VisitsOk(s.sweeps[i]);
  }

  lemma SweepListStays(threshold: int, s: State, a: Action, i: nat, t: Table)
    requires Enabled(s, a) && Evolves(t, s.table) && i < |Next(threshold, s, a).sweeps|
    requires i < |s.sweeps| ==> ListOk(t, s.sweeps[i])
    ensures ListOk(t, Next(threshold, s, a).sweeps[i])
  {
    hide NoneInactive, ListsIds, Evolves, ShouldSkip, Apply, IsLatest;
    if a.Resume? && a.sweep == i && s.sweeps[i].stage.Listing? && a.answer.Listed? {
      ListedWereActive(t, s.table, a.answer.ids);
    }
  }

  lemma {:induction false} ListsStayOk(threshold: int, states: seq<State>, actions: seq<Action>, d: nat, n: nat, i: nat)
    requires IsRun(threshold, states, actions) && d <= n < |states| && Unlisted(states[d], i) && i < |states[n].sweeps|
    ensures ListOk(states[d].table, states[n].sweeps[i])
  {
    hide *;
    if n == d {
      EveryStateOk(threshold, states, actions, d);
      UnlistedIsOk(threshold, states[d], i, states[d].table);
    } else {
      StepOfRun(threshold, states, actions, n);
      TableEvolves(threshold, states, actions, d, n - 1);
      if i < |states[n - 1].sweeps| {
        ListsStayOk(threshold, states, actions, d, n - 1, i);
      }
      SweepListStays(threshold, states[n - 1], actions[n - 1], i, states[d].table);
    }
  }

  lemma VisitedAreListed(sw: Sweep, t: Table)
    requires VisitsOk(sw) && ListOk(t, sw)
    ensures NoneInactive(t, sw.visited)
  {
    if sw.listed.Some? {
      var rest := if sw.stage.Finishing? || sw.stage.Over? then [] else sw.stage.rest;
      assert sw.listed.value == sw.visited + rest;
      assert forall id :: id in sw.visited ==> id in sw.visited + rest;
    }
  }

  /** Once a row has left `active`, no sweep that lists afterwards visits it: take any state d of any
      run, and any sweep that has not begun by then or still waits for its listing.  Nothing it visits
      later, so nothing it probes, is a row that state d held as anything but active, or for another
      provider than Anthropic. */
  lemma InactiveIsNeverSwept(threshold: int, states: seq<State>, actions: seq<Action>, d: nat, n: nat, i: nat)
    requires IsRun(threshold, states, actions) && d <= n < |states| && Unlisted(states[d], i) && i < |states[n].sweeps|
    ensures NoneInactive(states[d].table, states[n].sweeps[i].visited)
  {
    EveryStateOk(threshold, states, actions, n);
    ListsStayOk(threshold, states, actions, d, n, i);
    assert VisitsOk(states[n].sweeps[i]);
    VisitedAreListed(states[n].sweeps[i], states[d].table);
  }

  // ---------------------------------------------------------------- idle rows are probed

  /** The latest snapshot leaves the subscription idle: there is none, or it is at least `threshold` old
      and names no cooldown that ends later than `nowMs`. */
  predicate LeavesIdle(latest: Option<Snapshot>, nowMs: int, threshold: int) {
    latest.Some? ==>
      && nowMs - latest.value.sampledAt >= threshold
      && (latest.value.sample.cooldownUntil.None? || latest.value.sample.cooldownUntil.value <= nowMs as real)
  }

  /** A sweep goes on to fetch a token exactly for the subscriptions whose latest snapshot leaves them
      idle. */
  lemma ProbesExactlyIdle(threshold: int, s: State, i: nat, answer: Answer)
    requires Enabled(s, Resume(i, answer)) && s.sweeps[i].stage.Deciding?
    ensures var stage, stage' := s.sweeps[i].stage, Next(threshold, s, Resume(i, answer)).sweeps[i].stage;
            && (stage'.FetchingToken? <==> LeavesIdle(stage.latest, s.sweeps[i].nowMs, threshold))
            && (stage'.FetchingToken? ==> stage'.id == stage.id && stage'.rest == stage.rest)
  {
    hide Apply;
  }

  /** With a token it probes, and what the probe yields is stamped with the clock and put in the log as
      a probe snapshot of that subscription; then the next id has its turn. */
  lemma ProbeIsStored(threshold: int, s: State, i: nat, sample: Sample)
    requires i < |s.sweeps|
    ensures s.sweeps[i].stage.FetchingToken? ==>
              Enabled(s, Resume(i, Done))
              && Next(threshold, s, Resume(i, Done)).sweeps[i].stage == Probing(s.sweeps[i].stage.id, s.sweeps[i].stage.rest)
    ensures s.sweeps[i].stage.Probing? ==>
              Enabled(s, Resume(i, SampleIs(sample)))
              && Next(threshold, s, Resume(i, SampleIs(sample))).sweeps[i].stage
                 == Persisting(Snapshot(s.sweeps[i].stage.id, s.clock, Probe, sample), s.sweeps[i].stage.rest)
    ensures s.sweeps[i].stage.Persisting? ==>
              && Enabled(s, Resume(i, Done))
              && var s' := Next(threshold, s, Resume(i, Done));
                 && s'.log == s.log + [s.sweeps[i].stage.snapshot]
                 && (s.sweeps[i].stage.rest != [] ==>
                       s'.sweeps[i].stage == Reading(s.sweeps[i].stage.rest[0], s.sweeps[i].stage.rest[1..]))
  {
    hide Apply, ShouldSkip;
  }

  // ---------------------------------------------------------------- the rate

  /** How many probe snapshots of a subscription were stamped between two times, both included. */
  function CountIn(log: Log, id: SubId, from: int, to: int): nat {
    if log == [] then 0 else
      var last := log[|log| - 1];
      CountIn(log[..|log| - 1], id, from, to) + if IsProbe(last, id) && from <= last.sampledAt <= to then 1 else 0
  }

  /** The gaps between n spaced events take time; `i` is the latest of them. */
  lemma {:induction false} CountNeedsTime(threshold: int, log: Log, id: SubId, from: int, to: int) returns (i: nat)
    requires Spaced(threshold, log) && threshold >= 0
    ensures CountIn(log, id, from, to) > 0 ==>
              && i < |log| && IsProbe(log[i], id) && log[i].sampledAt <= to
              && from + (CountIn(log, id, from, to) - 1) * threshold <= log[i].sampledAt
  {
    i := 0;
    if log != [] {
      var front, last := log[..|log| - 1], log[|log| - 1];
      var n := CountIn(front, id, from, to);
      i := CountNeedsTime(threshold, front, id, from, to);
      if IsProbe(last, id) && from <= last.sampledAt <= to {
        assert n > 0 ==> front[i] == log[i] && log[i].sampledAt + threshold <= last.sampledAt;
        hide Spaced;
        OneMoreGap(n, threshold);
        i := |log| - 1;
      }
    }
  }

  lemma OneMoreGap(n: nat, threshold: int)
    ensures n * threshold == (n - 1) * threshold + threshold
  {
  }

  lemma MultipliesMonotone(a: int, b: int, factor: int)
    requires a <= b && factor >= 0
    ensures a * factor <= b * factor
  {
  }

  lemma TooManyGaps(threshold: int, gaps: int, w: nat)
    requires threshold > 0 && gaps > w / threshold
    ensures gaps * threshold > w
  {
    var q, r := w / threshold, w % threshold;
    assert w == threshold * q + r;
    assert (q + 1) * threshold == threshold * q + threshold;
    MultipliesMonotone(q + 1, gaps, threshold);
  }

  /** A window of length w holds at most floor(w / threshold) + 1 probe snapshots of a subscription. */
  lemma ProbeRate(threshold: int, states: seq<State>, actions: seq<Action>, n: nat, id: SubId, from: int, w: nat)
    requires IsRun(threshold, states, actions) && n < |states| && threshold > 0
    ensures CountIn(states[n].log, id, from, from + w) <= w / threshold + 1
  {
    EveryStateOk(threshold, states, actions, n);
    var count := CountIn(states[n].log, id, from, from + w);
    var i := CountNeedsTime(threshold, states[n].log, id, from, from + w);
    if count > w / threshold + 1 {
      TooManyGaps(threshold, count - 1, w);
      assert false;
    }
  }
}
