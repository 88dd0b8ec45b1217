/** The per-subscription in-flight counter. */
module InFlight {
  import opened Domain

  type Counts = map<SubId, int>

  function CountOf(counts: Counts, id: SubId): int {
    if id in counts then counts[id] else 0
  }

  function Inc(counts: Counts, id: SubId): Counts {
    counts[id := CountOf(counts, id) + 1]
  }

  function Dec(counts: Counts, id: SubId): Counts {
    if CountOf(counts, id) - 1 <= 0 then counts - {id} else counts[id := CountOf(counts, id) - 1]
  }

  /** Only counts that are positive are kept. */
  predicate Tidy(counts: Counts) {
    forall id :: id in counts ==> counts[id] > 0
  }

  /** A decrement undoes an increment, and is exact on every id that is held at least once. */
  lemma DecUndoesInc(counts: Counts, id: SubId)
    requires Tidy(counts)
    ensures Dec(Inc(counts, id), id) == counts
  {
    if id !in counts {
      assert Dec(Inc(counts, id), id) == counts[id := 1] - {id};
    }
  }

  class InFlightTracker {
    var counts: Counts

    constructor ()
      ensures counts == map[]
    {
      counts := map[];
    }

    method Get(id: SubId) returns (n: int)
      ensures n == CountOf(counts, id)
    {
      n := 0;
      if id in counts {
        n := counts[id];
      }
    }

    method Increment(id: SubId)
      modifies this
      ensures counts == Inc(old(counts), id)
    {
      var n := Get(id);
      counts := counts[id := n + 1];
    }

    method Decrement(id: SubId)
      modifies this
      ensures counts == Dec(old(counts), id)
    {
      var n := Get(id);
      var next := n - 1;
      if next <= 0 {
        counts := counts - {id};
      } else {
        counts := counts[id := next];
      }
    }
  }
}
