/** The pool together with its snapshot log: no request leases what the log says is fenced. */
module PoolFences {
  import opened Domain
  import opened SelectSubscription
  import opened HandleMessages
  import opened LoadLog
  import opened PoolSystem
  import opened PoolTheorems
  import RateLimit
  import Selection

  function AsSample(latest: Option<Snapshot>): Option<Sample> {
    if latest.Some? then Some(latest.value.sample) else None
  }

  predicate RepliesTo(a: Action, r: nat) {
    a.Reply? && a.request == r
  }

  /** The last move of request r before step k was step j; when r ranks at k, that is the answer to
      its listing. */
  ghost predicate LastMove(actions: seq<Action>, r: nat, j: nat, k: nat) {
    && j < k <= |actions| && RepliesTo(actions[j], r)
    && forall x :: j < x < k ==> !RepliesTo(actions[x], r)
  }

  /** Step k gives a request what it read about its candidates. */
  predicate Gathers(s: System, a: Action) {
    a.Reply? && a.request < |s.requests| && s.requests[a.request].local.pc.Ranking? && a.answer.Gathered?
  }

  /** The snapshot was the latest of its subscription at some moment after step j and up to step k. */
  ghost predicate ReadBetween(logs: seq<Log>, j: nat, k: nat, id: SubId, snapshot: Option<Sample>)
    requires k < |logs|
  {
    exists m, latest :: j < m <= k && IsLatest(logs[m], id, latest) && snapshot == AsSample(latest)
  }

  /** Step k tells a request that its harvest is stored. */
  predicate HarvestStored(s: System, a: Action) {
    a.Reply? && a.request < |s.requests| && s.requests[a.request].local.pc.Harvesting? && a.answer.Done?
  }

  /** The row a harvest stores: parsed from the headers of the response, whatever they were. */
  ghost predicate HarvestRow(row: Snapshot, id: SubId, status: int, nowMs: int) {
    && row.id == id && row.source == Passive && row.sampledAt <= nowMs
    && exists h: RateLimit.Headers, at: int :: at <= nowMs && row.sample == RateLimit.SampleOf(h, status, at)
  }

  /** The log only grows.  A harvest has its row in it before the request goes on.  What a request
      gathers for each candidate it may still choose was read, row by row, between the answer to its
      listing and now. */
  ghost predicate LogStep(s: System, a: Action, actions: seq<Action>, logs: seq<Log>, k: nat)
    requires k + 1 < |logs| && k < |actions|
  {
    && logs[k] <= logs[k + 1]
    && (HarvestStored(s, a) ==>
          && s.requests[a.request].local.current.Some?
          && |logs[k + 1]| == |logs[k]| + 1
          && HarvestRow(logs[k + 1][|logs[k]|], s.requests[a.request].local.current.value.id,
                        s.requests[a.request].local.pc.status, s.nowMs))
    && (Gathers(s, a) ==>
          exists j :: LastMove(actions, a.request, j, k) && AllRead(logs, j, k, s.requests[a.request].local, a.answer))
  }

  ghost predicate AllRead(logs: seq<Log>, j: nat, k: nat, l: Local, answer: Answer)
    requires k < |logs| && l.pc.Ranking? && answer.Gathered?
  {
    forall s :: s in l.pc.pool && s.id !in l.tried ==> ReadBetween(logs, j, k, s.id, answer.info(s.id).snapshot)
  }

  ghost predicate IsLoggedRun(cfg: Config, states: seq<System>, actions: seq<Action>, logs: seq<Log>) {
    && IsRun(cfg, states, actions) && |logs| == |states|
    && forall k :: 0 <= k < |actions| ==> LogStep(states[k], actions[k], actions, logs, k)
  }

  lemma {:induction false} LogsGrow(cfg: Config, states: seq<System>, actions: seq<Action>, logs: seq<Log>, a: nat, b: nat)
    requires IsLoggedRun(cfg, states, actions, logs) && a <= b < |logs|
    ensures logs[a] <= logs[b]
  {
    if a < b {
      LogsGrow(cfg, states, actions, logs, a, b - 1);
      assert LogStep(states[b - 1], actions[b - 1], actions, logs, b - 1);
      hide IsRun, HarvestStored, Gathers;
    }
  }

  /** Step k gives request r a lease. */
  predicate LeasesAt(states: seq<System>, actions: seq<Action>, k: nat, r: nat) {
    && k < |actions| && k + 1 < |states| && RepliesTo(actions[k], r)
    && r < |states[k].requests| && states[k].requests[r].local.pc.Ranking?
    && r < |states[k + 1].requests| && states[k + 1].requests[r].local.pc.AwaitingToken?
    && states[k + 1].requests[r].local.current.Some?
  }

  function LeasedAt(states: seq<System>, actions: seq<Action>, k: nat, r: nat): SubId
    requires LeasesAt(states, actions, k, r)
  {
    states[k + 1].requests[r].local.current.value.id
  }

  /** A ranking request that goes on to wait for a token has chosen a row that passes the fences on
      what it gathered. */
  lemma LeaseWasEligible(cfg: Config, states: seq<System>, actions: seq<Action>, k: nat, r: nat)
    requires IsRun(cfg, states, actions) && LeasesAt(states, actions, k, r)
    ensures var l := states[k].requests[r].local;
            var a := actions[k].answer;
            && Gathers(states[k], actions[k])
            && (exists s :: s in l.pc.pool && s.id !in l.tried && s.id == LeasedAt(states, actions, k, r))
            && Selection.IsEligible(a.info(LeasedAt(states, actions, k, r)).snapshot, states[k].nowMs)
  {
    StepOfRun(cfg, states, actions, k + 1);
    OthersStay(cfg, states[k], actions[k], r);
    var l := states[k].requests[r].local;
    var a := actions[k].answer;
    assert Fits(states[k], states[k].requests[r], a);
    hide IsRun, Next, Enabled;
    assert states[k + 1].requests[r].local == Resume(cfg.maxAttempts, l, a);
    ChosenIsEligible(l.pc.pool, l.tried, a.info, a.nowMs);
    var s := Choose(l.pc.pool, l.tried, a.info, a.nowMs).sub;
    assert s in l.pc.pool && s.id !in l.tried;
  }

  lemma OneLastMove(actions: seq<Action>, r: nat, i: nat, j: nat, k: nat)
    requires LastMove(actions, r, i, k) && LastMove(actions, r, j, k)
    ensures i == j
  {
  }

  /** Fenced is never picked, in every run: when a request leases a subscription, the latest snapshot
      that the log held for it, at some moment between the answer to the request's listing and the
      lease, is not fenced at the time of the lease. */
  lemma LeasedIsNotFenced(cfg: Config, states: seq<System>, actions: seq<Action>, logs: seq<Log>, k: nat, r: nat)
    returns (j: nat, m: nat, latest: Option<Snapshot>)
    requires IsLoggedRun(cfg, states, actions, logs) && LeasesAt(states, actions, k, r)
    ensures LastMove(actions, r, j, k) && j < m <= k
    ensures IsLatest(logs[m], LeasedAt(states, actions, k, r), latest)
    ensures Selection.IsEligible(AsSample(latest), states[k].nowMs)
  {
    LeaseWasEligible(cfg, states, actions, k, r);
    var id := LeasedAt(states, actions, k, r);
    assert LogStep(states[k], actions[k], actions, logs, k);
    hide IsRun, Selection.IsEligible, IsLatest, LeasedAt, HarvestStored;
    j :| LastMove(actions, r, j, k) && AllRead(logs, j, k, states[k].requests[r].local, actions[k].answer);
    assert ReadBetween(logs, j, k, id, actions[k].answer.info(id).snapshot);
    m, latest :| j < m <= k && IsLatest(logs[m], id, latest) && actions[k].answer.info(id).snapshot == AsSample(latest);
  }

  /** Every row of the log for that subscription that is as recent as `x` is fenced at `nowMs`. */
  ghost predicate FencedSince(log: Log, x: Snapshot, nowMs: int) {
    forall y :: y in log && y.id == x.id && y.sampledAt >= x.sampledAt ==> !Selection.IsEligible(Some(y.sample), nowMs)
  }

  /** Once the log has a fencing snapshot, no request that lists afterwards leases its subscription as
      long as that snapshot, and all as recent ones, fence. */
  lemma FencedIsNotLeased(cfg: Config, states: seq<System>, actions: seq<Action>, logs: seq<Log>,
                          x: Snapshot, e: nat, j: nat, k: nat, r: nat)
    requires IsLoggedRun(cfg, states, actions, logs) && LeasesAt(states, actions, k, r)
    requires LastMove(actions, r, j, k) && e <= j + 1 && x in logs[e] && FencedSince(logs[k], x, states[k].nowMs)
    ensures LeasedAt(states, actions, k, r) != x.id
  {
    var j', m, latest := LeasedIsNotFenced(cfg, states, actions, logs, k, r);
    OneLastMove(actions, r, j, j', k);
    LogsGrow(cfg, states, actions, logs, e, m);
    LogsGrow(cfg, states, actions, logs, m, k);
    hide IsLoggedRun, LeasesAt, LeasedAt, LastMove, Selection.IsEligible, IsLatest, FencedSince;
    LatestIsFenced(logs[e], logs[m], logs[k], x, latest, states[k].nowMs);
  }

  lemma LatestIsFenced(early: Log, log: Log, late: Log, x: Snapshot, latest: Option<Snapshot>, nowMs: int)
    requires early <= log <= late && x in early && FencedSince(late, x, nowMs)
    ensures IsLatest(log, x.id, latest) ==> !Selection.IsEligible(AsSample(latest), nowMs)
  {
    hide Selection.IsEligible;
    InPrefix(early, log, x);
    if IsLatest(log, x.id, latest) {
      InPrefix(log, late, latest.value);
    }
  }

  lemma InPrefix(log: Log, longer: Log, x: Snapshot)
    requires log <= longer && x in log
    ensures x in longer
  {
    var i :| 0 <= i < |log| && log[i] == x;
    assert longer[i] == x;
  }

  /** The row that step e stored for a harvest. */
  function StoredRow(logs: seq<Log>, e: nat): Snapshot
    requires e + 1 < |logs| && |logs[e]| < |logs[e + 1]|
  {
    logs[e + 1][|logs[e]|]
  }

  /** No other snapshot of the subscription is as recent. */
  ghost predicate StillNewest(log: Log, x: Snapshot) {
    forall y :: y in log && y.id == x.id && y.sampledAt >= x.sampledAt ==> y == x
  }

  /** What one request learns protects all the others: from the step at which a request's harvest of a
      cooldown is stored, no request that lists afterwards leases that subscription until the
      cooldown is over or a snapshot as recent has come in. */
  lemma HarvestedCooldownHolds(cfg: Config, states: seq<System>, actions: seq<Action>, logs: seq<Log>,
                               e: nat, j: nat, k: nat, r: nat)
    requires IsLoggedRun(cfg, states, actions, logs) && LeasesAt(states, actions, k, r)
    requires e < |actions| && HarvestStored(states[e], actions[e]) && LastMove(actions, r, j, k) && e <= j
    requires |logs[e]| < |logs[e + 1]|
    requires var x := StoredRow(logs, e);
             && x.sample.cooldownUntil.Some? && x.sample.cooldownUntil.value > states[k].nowMs as real
             && StillNewest(logs[k], x)
    ensures LeasedAt(states, actions, k, r) != states[e].requests[actions[e].request].local.current.value.id
  {
    assert LogStep(states[e], actions[e], actions, logs, e);
    var x := StoredRow(logs, e);
    assert FencedSince(logs[k], x, states[k].nowMs);
    hide IsLoggedRun, FencedSince, LeasesAt, LeasedAt;
    FencedIsNotLeased(cfg, states, actions, logs, x, e + 1, j, k, r);
  }

  /** From the headers of one request's 429 to the leases of all others: once its harvest is stored,
      no request that lists afterwards leases that subscription until the retry-after, the reset or
      the five minutes that the response asked for are over, or a snapshot as recent has come in. */
  lemma Harvested429Holds(cfg: Config, states: seq<System>, actions: seq<Action>, logs: seq<Log>,
                          e: nat, j: nat, k: nat, r: nat, h: RateLimit.Headers, at: int)
    requires IsLoggedRun(cfg, states, actions, logs) && LeasesAt(states, actions, k, r)
    requires e < |actions| && HarvestStored(states[e], actions[e]) && LastMove(actions, r, j, k) && e <= j
    requires |logs[e]| < |logs[e + 1]|
    requires var x := StoredRow(logs, e);
             && x.sample == RateLimit.SampleOf(h, 429, at) && !RateLimit.FenceIsOver(h, at, states[k].nowMs)
             && StillNewest(logs[k], x)
    ensures LeasedAt(states, actions, k, r) != states[e].requests[actions[e].request].local.current.value.id
  {
    assert LogStep(states[e], actions[e], actions, logs, e);
    var x := StoredRow(logs, e);
    RateLimit.FencesExactlyUntil(h, 429, at, states[k].nowMs);
    hide IsLoggedRun, LeasesAt, LeasedAt, RateLimit.SampleOf, RateLimit.FenceIsOver, Selection.IsEligible;
    assert FencedSince(logs[k], x, states[k].nowMs);
    FencedIsNotLeased(cfg, states, actions, logs, x, e + 1, j, k, r);
  }
}
