/** Selecting and taking a lease, over and over: the greedy balancer is optimal. */
module WaterFilling {
  import opened Domain
  import opened InFlight
  import opened Selection
  import opened SelectSubscription

  /** A pool as it is listed, and the latest snapshots, all read at one instant. */
  datatype Pool = Pool(rows: seq<Subscription>, latest: SubId -> Option<Sample>, nowMs: int)

  ghost predicate Proper(p: Pool) {
    DistinctRows(p.rows) && exists e :: e in p.rows && Open(p, e)
  }

  predicate Open(p: Pool, e: Subscription) {
    IsEligible(p.latest(e.id), p.nowMs)
  }

  function Held(counts: Counts, id: SubId): nat {
    if CountOf(counts, id) < 0 then 0 else CountOf(counts, id)
  }

  function Gathering(p: Pool, counts: Counts): SubId -> Info {
    (id: SubId) => Info(p.latest(id), Held(counts, id))
  }

  /** The tracker after n rounds of "select, then increment what was selected". */
  function Fill(p: Pool, n: nat): Counts {
    if n == 0 then map[] else
      var counts := Fill(p, n - 1);
      match Choose(p.rows, {}, Gathering(p, counts), p.nowMs)
      case Chosen(s) => Inc(counts, s.id)
      case _ => counts
  }

  /** The biased score of a subscription that holds so many leases. */
  function Level(p: Pool, e: Subscription, held: nat): real {
    Biased(Candidate(e.id, p.latest(e.id), held))
  }

  /** How many requests an allocation places on the first k rows. */
  function Total(p: Pool, alloc: SubId -> nat, k: nat): nat
    requires k <= |p.rows|
  {
    if k == 0 then 0 else Total(p, alloc, k - 1) + alloc(p.rows[k - 1].id)
  }

  /** An allocation that respects the fences. */
  ghost predicate Respects(p: Pool, alloc: SubId -> nat) {
    forall e :: e in p.rows && !Open(p, e) ==> alloc(e.id) == 0
  }

  ghost predicate PeakAtMost(p: Pool, alloc: SubId -> nat, bound: real) {
    forall e :: e in p.rows && Open(p, e) ==> Level(p, e, alloc(e.id)) <= bound
  }

  /** A way of placing n requests on the eligible subscriptions of a pool. */
  ghost predicate Places(p: Pool, alloc: SubId -> nat, n: nat) {
    Respects(p, alloc) && Total(p, alloc, |p.rows|) == n
  }

  function Allocation(counts: Counts): SubId -> nat {
    (id: SubId) => Held(counts, id)
  }

  /** Every row that holds a lease was no higher than any other before its last one. */
  ghost predicate Balanced(p: Pool, counts: Counts) {
    forall e, f :: e in p.rows && f in p.rows && Open(p, e) && Open(p, f) && Held(counts, e.id) > 0 ==>
      Level(p, e, Held(counts, e.id) - 1) <= Level(p, f, Held(counts, f.id))
  }

  ghost predicate Filled(p: Pool, counts: Counts, n: nat) {
    Tidy(counts) && Balanced(p, counts) && Places(p, Allocation(counts), n)
  }

  lemma {:induction false} TotalAfterInc(p: Pool, counts: Counts, id: SubId, k: nat)
    requires DistinctRows(p.rows) && k <= |p.rows| && Tidy(counts)
    ensures Total(p, Allocation(Inc(counts, id)), k) ==
            Total(p, Allocation(counts), k) + (if exists i :: 0 <= i < k && p.rows[i].id == id then 1 else 0)
  {
    if k > 0 {
      TotalAfterInc(p, counts, id, k - 1);
      if p.rows[k - 1].id == id {
        assert forall i :: 0 <= i < k - 1 ==> p.rows[i].id != id;
      }
    }
  }

  lemma {:induction false} EmptyTotal(p: Pool, k: nat)
    requires k <= |p.rows|
    ensures Total(p, Allocation(map[]), k) == 0
  {
    if k > 0 {
      EmptyTotal(p, k - 1);
    }
  }

  lemma FillNothing(p: Pool, n: nat)
    requires n == 0
    ensures Filled(p, Fill(p, n), n)
  {
    assert Fill(p, n) == map[];
    EmptyTotal(p, |p.rows|);
    hide Level, Open, Fill;
  }

  lemma FillNext(p: Pool, n: nat, chosen: Subscription)
    requires n > 0 && Choose(p.rows, {}, Gathering(p, Fill(p, n - 1)), p.nowMs) == Chosen(chosen)
    ensures Fill(p, n) == Inc(Fill(p, n - 1), chosen.id)
  {
  }

  lemma OneMoreRound(p: Pool, n: nat)
    requires Proper(p) && n > 0 && Filled(p, Fill(p, n - 1), n - 1)
    ensures Filled(p, Fill(p, n), n)
  {
    assert DistinctRows(p.rows);
    hide *;
    var chosen := ChosenIsLowest(p, Fill(p, n - 1));
    FillNext(p, n, chosen);
    IncStaysFilled(p, Fill(p, n - 1), chosen, n - 1);
  }

  lemma {:induction false} FillIsFilled(p: Pool, n: nat)
    requires Proper(p)
    ensures Filled(p, Fill(p, n), n)
  {
    hide *;
    if n == 0 {
      FillNothing(p, n);
    } else {
      FillIsFilled(p, n - 1);
      OneMoreRound(p, n);
    }
  }

  lemma SelectableIffOpen(p: Pool, counts: Counts, e: Subscription)
    ensures Selectable(p.rows, {}, Gathering(p, counts), p.nowMs, e) <==> e in p.rows && Open(p, e)
  {
  }

  lemma NotHigher(p: Pool, counts: Counts, a: Subscription, b: Subscription)
    requires a == b || Before(AsCandidate(a, Gathering(p, counts)), AsCandidate(b, Gathering(p, counts)))
    ensures Level(p, a, Held(counts, a.id)) <= Level(p, b, Held(counts, b.id))
  {
    hide LoadScore;
  }

  /** Each round picks a lowest eligible row. */
  lemma ChosenIsLowest(p: Pool, counts: Counts) returns (chosen: Subscription)
    requires Proper(p)
    ensures chosen in p.rows && Open(p, chosen)
    ensures Choose(p.rows, {}, Gathering(p, counts), p.nowMs) == Chosen(chosen)
    ensures forall f :: f in p.rows && Open(p, f) ==>
              Level(p, chosen, Held(counts, chosen.id)) <= Level(p, f, Held(counts, f.id))
  {
    var e :| e in p.rows && Open(p, e);
    hide Choose, Open, Selectable, Gathering, Before, Level, Held;
    var info := Gathering(p, counts);
    ChooseIsLeast(p.rows, {}, info, p.nowMs);
    SelectableIffOpen(p, counts, e);
    chosen := Choose(p.rows, {}, info, p.nowMs).sub;
    SelectableIffOpen(p, counts, chosen);
    forall f | f in p.rows && Open(p, f)
      ensures Level(p, chosen, Held(counts, chosen.id)) <= Level(p, f, Held(counts, f.id))
    {
      SelectableIffOpen(p, counts, f);
      NotHigher(p, counts, chosen, f);
    }
  }

  lemma IncHolds(counts: Counts, id: SubId)
    requires Tidy(counts)
    ensures Tidy(Inc(counts, id))
    ensures forall f :: Held(Inc(counts, id), f) == Held(counts, f) + if f == id then 1 else 0
  {
  }

  lemma SameRow(p: Pool, e: Subscription, f: Subscription)
    requires DistinctRows(p.rows) && e in p.rows && f in p.rows && e.id == f.id
    ensures e == f
  {
    var i :| 0 <= i < |p.rows| && p.rows[i] == e;
    var k :| 0 <= k < |p.rows| && p.rows[k] == f;
  }

  lemma IncStaysBalanced(p: Pool, counts: Counts, chosen: Subscription)
    requires DistinctRows(p.rows) && Tidy(counts) && Balanced(p, counts) && chosen in p.rows
    requires forall f :: f in p.rows && Open(p, f) ==>
               Level(p, chosen, Held(counts, chosen.id)) <= Level(p, f, Held(counts, f.id))
    ensures Balanced(p, Inc(counts, chosen.id))
  {
    var counts' := Inc(counts, chosen.id);
    IncHolds(counts, chosen.id);
    hide IsEligible, LoadScore, Held, DistinctRows, Open;
    forall e, f | e in p.rows && f in p.rows && Open(p, e) && Open(p, f) && Held(counts', e.id) > 0
      ensures Level(p, e, Held(counts', e.id) - 1) <= Level(p, f, Held(counts', f.id))
    {
      if e.id == chosen.id {
        SameRow(p, e, chosen);
      }
    }
  }

  lemma IncStaysFilled(p: Pool, counts: Counts, chosen: Subscription, n: nat)
    requires DistinctRows(p.rows) && Filled(p, counts, n)
    requires chosen in p.rows && Open(p, chosen)
    requires forall f :: f in p.rows && Open(p, f) ==>
               Level(p, chosen, Held(counts, chosen.id)) <= Level(p, f, Held(counts, f.id))
    ensures Filled(p, Inc(counts, chosen.id), n + 1)
  {
    TotalAfterInc(p, counts, chosen.id, |p.rows|);
    IncStaysBalanced(p, counts, chosen);
    IncHolds(counts, chosen.id);
    var i :| 0 <= i < |p.rows| && p.rows[i] == chosen;
    hide Balanced, Held, Open, Level, Total;
    forall e | e in p.rows && !Open(p, e) ensures Held(Inc(counts, chosen.id), e.id) == 0 {
      assert Allocation(counts)(e.id) == 0;
      if e.id == chosen.id {
        SameRow(p, e, chosen);
      }
    }
  }

  /** Placing fewer on one row and no more on the others places fewer in all. */
  lemma {:induction false} SmallerTotal(p: Pool, a: SubId -> nat, b: SubId -> nat, k: nat)
    requires k <= |p.rows|
    requires forall i :: 0 <= i < k ==> a(p.rows[i].id) <= b(p.rows[i].id)
    ensures Total(p, a, k) <= Total(p, b, k)
    ensures (exists i :: 0 <= i < k && a(p.rows[i].id) < b(p.rows[i].id)) ==> Total(p, a, k) < Total(p, b, k)
  {
    if k > 0 {
      SmallerTotal(p, a, b, k - 1);
    }
  }

  /** A row above the bound of another placement of as many requests holds more than that placement
      gives it, and then so, at least weakly, do all others. */
  lemma HigherMeansMore(p: Pool, counts: Counts, alloc: SubId -> nat, bound: real, e: Subscription, f: Subscription)
    requires Balanced(p, counts) && Respects(p, alloc) && PeakAtMost(p, alloc, bound)
    requires e in p.rows && Open(p, e) && Level(p, e, Held(counts, e.id)) > bound && f in p.rows
    ensures alloc(e.id) < Held(counts, e.id) && alloc(f.id) <= Held(counts, f.id)
  {
    hide IsEligible, LoadScore;
    assert Level(p, e, alloc(e.id)) <= bound;
    if Open(p, f) {
      assert Level(p, e, Held(counts, e.id) - 1) <= Level(p, f, Held(counts, f.id));
      assert Level(p, f, alloc(f.id)) <= bound;
    }
  }

  /** Water-filling is optimal: after n selections the highest biased score among the eligible is
      the least that any way of placing n requests on the eligible can reach. */
  lemma GreedyIsOptimal(p: Pool, n: nat, alloc: SubId -> nat, bound: real)
    requires Proper(p) && Places(p, alloc, n) && PeakAtMost(p, alloc, bound)
    ensures Places(p, Allocation(Fill(p, n)), n) && PeakAtMost(p, Allocation(Fill(p, n)), bound)
  {
    FillIsFilled(p, n);
    var counts := Fill(p, n);
    var greedy := Allocation(counts);
    hide Fill, Level, Open;
    forall e | e in p.rows && Open(p, e) ensures Level(p, e, greedy(e.id)) <= bound {
      if Level(p, e, greedy(e.id)) > bound {
        forall i | 0 <= i < |p.rows| ensures alloc(p.rows[i].id) <= greedy(p.rows[i].id) {
          HigherMeansMore(p, counts, alloc, bound, e, p.rows[i]);
        }
        HigherMeansMore(p, counts, alloc, bound, e, e);
        var i :| 0 <= i < |p.rows| && p.rows[i] == e;
        SmallerTotal(p, alloc, greedy, |p.rows|);
        assert false;
      }
    }
  }

  /** A row that holds a lease is at most one request's weight above any other. */
  lemma GreedyIsBalanced(p: Pool, n: nat, e: Subscription, f: Subscription)
    requires Proper(p) && e in p.rows && f in p.rows && Open(p, e) && Open(p, f)
    requires CountOf(Fill(p, n), e.id) >= 1
    ensures Level(p, e, Held(Fill(p, n), e.id)) <= Level(p, f, Held(Fill(p, n), f.id)) + 0.05
  {
    FillIsFilled(p, n);
  }
}
