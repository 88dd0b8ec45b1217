/** The append-only log of load snapshots. */
module LoadLog {
  import opened Domain

  /** A sample with its subscription, its source, and the clock reading (milliseconds) it was stamped with. */
  datatype Snapshot = Snapshot(id: SubId, sampledAt: int, source: LoadSource, sample: Sample)

  type Log = seq<Snapshot>

  /** What the query for the latest snapshot may give: a row of that subscription with the greatest
      time (any of them, should several share it), or nothing when there is no row. */
  predicate IsLatest(log: Log, id: SubId, latest: Option<Snapshot>) {
    match latest
    case None => forall s :: s in log ==> s.id != id
    case Some(l) => l in log && l.id == id && forall s :: s in log && s.id == id ==> s.sampledAt <= l.sampledAt
  }

  class LoadRepository {
    var log: Log

    constructor ()
      ensures log == []
    {
      log := [];
    }

    method InsertSnapshot(s: Snapshot)
      modifies this
      ensures log == old(log) + [s]
    {
      log := log + [s];
    }

    method LatestBySubscription(id: SubId) returns (latest: Option<Snapshot>)
      ensures IsLatest(log, id, latest)
    {
      latest := None;
      for i := 0 to |log|
        invariant IsLatest(log[..i], id, latest)
      {
        assert log[..i + 1] == log[..i] + [log[i]];
        if log[i].id == id && (latest.None? || latest.value.sampledAt < log[i].sampledAt) {
          latest := Some(log[i]);
        }
      }
      assert log[..|log|] == log;
    }
  }
}
