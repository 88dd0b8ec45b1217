/** Least-loaded selection: the fences, the three-level order and the retry hint. */
module Selection {
  import opened Domain

  const UNKNOWN_SCORE := 0.5
  const NEAR_FULL := 0.98
  const DEFAULT_RETRY := 30

  datatype Candidate = Candidate(id: SubId, snapshot: Option<Sample>, inFlight: nat)

  datatype Result = Ok(id: SubId) | NoCapacity(retryAfterSeconds: int) | Empty

  // ---------------------------------------------------------------- scores and fences

  function Max(a: real, b: real): real { if a < b then b else a }

  function Min(a: real, b: real): real { if b < a then b else a }

  function WindowUtil(s: Sample): Option<real> {
    match s.representative
    case Some(SevenDay) => s.util7d
    case Some(FiveHour) => s.util5h
    case None =>
      match (s.util5h, s.util7d)
      case (Some(a), Some(b)) => Some(Max(a, b))
      case (Some(a), None) => Some(a)
      case (None, u) => u
  }

  function LoadScore(snapshot: Option<Sample>): real {
    if snapshot.None? then UNKNOWN_SCORE else
    match WindowUtil(snapshot.value)
    case None => UNKNOWN_SCORE
    case Some(util) => Min(Max(util, 0.0), 1.0)
  }

  predicate IsEligible(snapshot: Option<Sample>, nowMs: int) {
    if snapshot.None? then true
    else if snapshot.value.cooldownUntil.Some? && snapshot.value.cooldownUntil.value > nowMs as real then false
    else if snapshot.value.unifiedStatus == Some(RateLimited) then false
    else LoadScore(snapshot) < NEAR_FULL
  }

  /** When the candidate's fence is expected to lift, in milliseconds. */
  function RepresentativeResetMs(snapshot: Option<Sample>): Option<real> {
    if snapshot.None? then None
    else if snapshot.value.cooldownUntil.Some? then snapshot.value.cooldownUntil
    else
      match (if snapshot.value.representative == Some(SevenDay) then snapshot.value.reset7d else snapshot.value.reset5h)
      case Some(reset) => Some(reset * 1000.0)
      case None => None
  }

  // ---------------------------------------------------------------- the order

  /** The load score, raised by 0.05 for every request in flight. */
  function Biased(c: Candidate): real {
    LoadScore(c.snapshot) + 0.05 * c.inFlight as real
  }

  /** Lexicographic on (biased score, in-flight count, id). */
  predicate Before(a: Candidate, b: Candidate) {
    if Biased(a) != Biased(b) then Biased(a) < Biased(b)
    else if a.inFlight != b.inFlight then a.inFlight < b.inFlight
    else a.id < b.id
  }

  predicate DistinctIds(cs: seq<Candidate>) {
    forall i, j :: 0 <= i < j < |cs| ==> cs[i].id != cs[j].id
  }

  function Eligible(cs: seq<Candidate>, nowMs: int): (r: seq<Candidate>)
    ensures forall c :: c in r <==> c in cs && IsEligible(c.snapshot, nowMs)
  {
    if cs == [] then []
    else if IsEligible(cs[0].snapshot, nowMs) then [cs[0]] + Eligible(cs[1..], nowMs)
    else Eligible(cs[1..], nowMs)
  }

  /** Stable sorting by `Before`. */
  function Insert(c: Candidate, cs: seq<Candidate>): (r: seq<Candidate>)
    ensures multiset(r) == multiset{c} + multiset(cs)
  {
    if cs == [] || !Before(cs[0], c) then
      assert multiset([c] + cs) == multiset{c} + multiset(cs);
      [c] + cs
    else
      assert cs == [cs[0]] + cs[1..];
      [cs[0]] + Insert(c, cs[1..])
  }

  function Ranked(cs: seq<Candidate>): (r: seq<Candidate>)
    ensures multiset(r) == multiset(cs)
    ensures |r| == |cs|
  {
    if cs == [] then [] else
      assert cs == [cs[0]] + cs[1..];
      var r := Insert(cs[0], Ranked(cs[1..]));
      assert |r| == |multiset(r)| == |multiset(cs)| == |cs|;
      r
  }

  predicate Sorted(cs: seq<Candidate>) {
    forall i, j :: 0 <= i < j < |cs| ==> !Before(cs[j], cs[i])
  }

  lemma {:induction false} InsertSorted(c: Candidate, cs: seq<Candidate>)
    requires Sorted(cs)
    ensures Sorted(Insert(c, cs))
  {
    if cs == [] || !Before(cs[0], c) {
      var r := [c] + cs;
      forall i, j | 0 <= i < j < |r| ensures !Before(r[j], r[i]) {
        if i == 0 {
          assert r[j] == cs[j - 1];
          assert j == 1 || !Before(cs[j - 1], cs[0]);
        } else {
          assert r[i] == cs[i - 1] && r[j] == cs[j - 1];
        }
      }
    } else {
      InsertSorted(c, cs[1..]);
      var t := Insert(c, cs[1..]);
      forall j | 0 <= j < |t| ensures !Before(t[j], cs[0]) {
        assert t[j] in multiset(t);
        if t[j] != c {
          assert t[j] in cs[1..];
          var k :| 0 <= k < |cs[1..]| && cs[1..][k] == t[j];
          assert cs[k + 1] == t[j];
        }
      }
    }
  }

  lemma {:induction false} RankedSorted(cs: seq<Candidate>)
    ensures Sorted(Ranked(cs))
  {
    if cs != [] {
      RankedSorted(cs[1..]);
      InsertSorted(cs[0], Ranked(cs[1..]));
    }
  }

  // ---------------------------------------------------------------- the retry hint

  /** The least reset among the candidates that name one. */
  function SoonestReset(cs: seq<Candidate>): Option<real> {
    if cs == [] then None else
    match (SoonestReset(cs[..|cs| - 1]), RepresentativeResetMs(cs[|cs| - 1].snapshot))
    case (soonest, None) => soonest
    case (None, reset) => reset
    case (Some(a), Some(b)) => Some(Min(a, b))
  }

  function Ceil(x: real): int {
    if x.Floor as real == x then x.Floor else x.Floor + 1
  }

  function WaitSeconds(deadline: real, nowMs: int): int {
    var w := Ceil((deadline - nowMs as real) / 1000.0);
    if w < 1 then 1 else w
  }

  function RetryHint(cs: seq<Candidate>, nowMs: int): int {
    match SoonestReset(cs)
    case None => DEFAULT_RETRY
    case Some(soonest) => WaitSeconds(soonest, nowMs)
  }

  function Select(cs: seq<Candidate>, nowMs: int): Result {
    if |cs| == 0 then Empty else
      var eligible := Eligible(cs, nowMs);
      if |eligible| == 0 then NoCapacity(RetryHint(cs, nowMs))
      else Ok(Ranked(eligible)[0].id)
  }

  method SoonestRetry(candidates: seq<Candidate>, nowMs: int) returns (seconds: int)
    ensures seconds == RetryHint(candidates, nowMs)
  {
    var soonest: Option<real> := None;
    for i := 0 to |candidates|
      invariant soonest == SoonestReset(candidates[..i])
    {
      assert candidates[..i + 1][..i] == candidates[..i];
      var reset := RepresentativeResetMs(candidates[i].snapshot);
      if reset.None? {
        continue;
      }
      soonest := if soonest.None? then reset else Some(Min(soonest.value, reset.value));
    }
    assert candidates[..|candidates|] == candidates;
    if soonest.None? {
      return DEFAULT_RETRY;
    }
    seconds := Ceil((soonest.value - nowMs as real) / 1000.0);
    if seconds < 1 {
      seconds := 1;
    }
  }

  lemma {:induction false} InsertAt(c: Candidate, cs: seq<Candidate>, k: nat)
    requires k <= |cs| && (forall i :: 0 <= i < k ==> Before(cs[i], c)) && (k < |cs| ==> !Before(cs[k], c))
    ensures Insert(c, cs) == cs[..k] + [c] + cs[k..]
  {
    if k > 0 {
      InsertAt(c, cs[1..], k - 1);
      assert cs[..k] == [cs[0]] + cs[1..][..k - 1] && cs[k..] == cs[1..][k - 1..];
    }
  }

  /** Puts one candidate behind those that precede it. */
  method InsertInto(c: Candidate, ranked: seq<Candidate>) returns (longer: seq<Candidate>)
    ensures longer == Insert(c, ranked)
  {
    hide Before, Insert;
    var k := 0;
    while k < |ranked| && Before(ranked[k], c)
      invariant 0 <= k <= |ranked| && forall j :: 0 <= j < k ==> Before(ranked[j], c)
    {
      k := k + 1;
    }
    InsertAt(c, ranked, k);
    longer := ranked[..k] + [c] + ranked[k..];
  }

  /** `sort` on a copy: stable, ordered by the comparator, and of the same candidates. */
  method SortCopy(candidates: seq<Candidate>) returns (ranked: seq<Candidate>)
    ensures ranked == Ranked(candidates)
    ensures Sorted(ranked) && multiset(ranked) == multiset(candidates)
  {
    RankedSorted(candidates);
    hide Sorted, Insert;
    ranked := [];
    var i := |candidates|;
    while i > 0
      invariant 0 <= i <= |candidates|
      invariant ranked == Ranked(candidates[i..])
    {
      i := i - 1;
      assert candidates[i..][1..] == candidates[i + 1..];
      ranked := InsertInto(candidates[i], ranked);
    }
    assert candidates[0..] == candidates;
  }

  method SelectLeastLoaded(candidates: seq<Candidate>, nowMs: int) returns (result: Result)
    ensures result == Select(candidates, nowMs)
  {
    if |candidates| == 0 {
      return Empty;
    }
    var eligible := Eligible(candidates, nowMs);
    if |eligible| == 0 {
      var retry := SoonestRetry(candidates, nowMs);
      return NoCapacity(retry);
    }
    var ranked := SortCopy(eligible);
    return Ok(ranked[0].id);
  }

  // ---------------------------------------------------------------- what selection promises

  /** `c` is the unique least eligible candidate. */
  ghost predicate IsChoice(cs: seq<Candidate>, nowMs: int, c: Candidate) {
    && c in cs && IsEligible(c.snapshot, nowMs)
    && forall d :: d in cs && IsEligible(d.snapshot, nowMs) && d != c ==> Before(c, d)
  }

  /** Selection returns an id exactly when some candidate is eligible, and then the id of the one
      eligible candidate that precedes every other eligible candidate. */
  lemma SelectIsLeast(cs: seq<Candidate>, nowMs: int)
    requires DistinctIds(cs)
    ensures Select(cs, nowMs).Ok? <==> exists c :: c in cs && IsEligible(c.snapshot, nowMs)
    ensures Select(cs, nowMs).Ok? ==> exists c :: IsChoice(cs, nowMs, c) && c.id == Select(cs, nowMs).id
    ensures Select(cs, nowMs).Empty? <==> cs == []
  {
    var eligible := Eligible(cs, nowMs);
    if |eligible| == 0 {
      forall c | c in cs ensures !IsEligible(c.snapshot, nowMs) {
        assert c !in eligible;
      }
    } else {
      var ranked := Ranked(eligible);
      RankedSorted(eligible);
      var c := ranked[0];
      assert c in multiset(ranked);
      assert c in eligible;
      forall d | d in cs && IsEligible(d.snapshot, nowMs) && d != c ensures Before(c, d) {
        assert d in eligible && d in multiset(ranked);
        var k :| 0 <= k < |ranked| && ranked[k] == d;
        assert !Before(ranked[k], ranked[0]);
        var i :| 0 <= i < |cs| && cs[i] == c;
        var j :| 0 <= j < |cs| && cs[j] == d;
        assert c.id != d.id;
      }
      assert IsChoice(cs, nowMs, c);
    }
  }

  lemma ChoiceIsUnique(cs: seq<Candidate>, nowMs: int, c: Candidate, d: Candidate)
    requires IsChoice(cs, nowMs, c) && IsChoice(cs, nowMs, d)
    ensures c == d
  {
  }

  /** The order spelled out: what is selected beats any other eligible candidate on the load score
      plus 0.05 per request in flight, or ties there and has fewer requests in flight, or ties there
      too and has the smaller id. */
  lemma SelectedBeats(cs: seq<Candidate>, nowMs: int, d: Candidate) returns (c: Candidate)
    requires DistinctIds(cs) && d in cs && IsEligible(d.snapshot, nowMs)
    ensures c in cs && IsEligible(c.snapshot, nowMs) && Select(cs, nowMs) == Ok(c.id)
    ensures var mine, other := LoadScore(c.snapshot) + 0.05 * c.inFlight as real, LoadScore(d.snapshot) + 0.05 * d.inFlight as real;
            || c == d
            || mine < other
            || (mine == other && c.inFlight < d.inFlight)
            || (mine == other && c.inFlight == d.inFlight && c.id < d.id)
  {
    SelectIsLeast(cs, nowMs);
    hide Select, IsEligible, LoadScore;
    c :| IsChoice(cs, nowMs, c) && c.id == Select(cs, nowMs).id;
  }

  /** The soonest reset is the least of the resets named, in whatever order they come. */
  lemma {:induction false} SoonestResetIsMin(cs: seq<Candidate>)
    ensures SoonestReset(cs).None? <==> forall c :: c in cs ==> RepresentativeResetMs(c.snapshot).None?
    ensures SoonestReset(cs).Some? ==> exists c :: c in cs && RepresentativeResetMs(c.snapshot) == SoonestReset(cs)
    ensures forall c :: c in cs && RepresentativeResetMs(c.snapshot).Some? ==>
              SoonestReset(cs).Some? && SoonestReset(cs).value <= RepresentativeResetMs(c.snapshot).value
  {
    if cs != [] {
      var front, last := cs[..|cs| - 1], cs[|cs| - 1];
      SoonestResetIsMin(front);
      assert cs == front + [last];
      assert last in cs;
      forall c | c in cs ensures c in front || c == last {}
      forall c | c in front ensures c in cs {}
    }
  }

  /** No candidate of the pool names an earlier reset. */
  ghost predicate NamesSoonest(cs: seq<Candidate>, c: Candidate) {
    && c in cs && RepresentativeResetMs(c.snapshot).Some?
    && forall d :: d in cs && RepresentativeResetMs(d.snapshot).Some? ==>
         RepresentativeResetMs(c.snapshot).value <= RepresentativeResetMs(d.snapshot).value
  }

  lemma WaitCounts(deadline: real, nowMs: int)
    ensures var r := WaitSeconds(deadline, nowMs);
            && r >= 1 && deadline <= nowMs as real + 1000.0 * r as real
            && (r > 1 ==> deadline > nowMs as real + 1000.0 * (r - 1) as real)
  {
    var x := (deadline - nowMs as real) / 1000.0;
    assert x <= Ceil(x) as real < x + 1.0;
  }

  /** The seconds a closed pool names: thirty when no candidate names a reset, otherwise the least
      number, one or more, that reaches the soonest of the resets named. */
  lemma HintCountsSeconds(cs: seq<Candidate>, nowMs: int)
    requires Select(cs, nowMs).NoCapacity?
    ensures var r := Select(cs, nowMs).retryAfterSeconds;
            && ((forall c :: c in cs ==> RepresentativeResetMs(c.snapshot).None?) ==> r == 30)
            && (forall c :: NamesSoonest(cs, c) ==>
                  var reset := RepresentativeResetMs(c.snapshot).value;
                  && r >= 1 && reset <= nowMs as real + 1000.0 * r as real
                  && (r > 1 ==> reset > nowMs as real + 1000.0 * (r - 1) as real))
  {
    SoonestResetIsMin(cs);
    if SoonestReset(cs).Some? {
      WaitCounts(SoonestReset(cs).value, nowMs);
    }
    hide WaitSeconds, SoonestReset, RepresentativeResetMs;
  }

  lemma SameSoonestReset(a: seq<Candidate>, b: seq<Candidate>)
    requires forall c :: c in a <==> c in b
    ensures SoonestReset(a) == SoonestReset(b)
  {
    SoonestResetIsMin(a);
    SoonestResetIsMin(b);
    hide SoonestReset, RepresentativeResetMs;
  }

  lemma SameSelection(a: seq<Candidate>, b: seq<Candidate>, nowMs: int)
    requires DistinctIds(a) && DistinctIds(b) && forall c :: c in a <==> c in b
    ensures Select(a, nowMs).Ok? <==> Select(b, nowMs).Ok?
    ensures Select(a, nowMs).Ok? ==> Select(a, nowMs) == Select(b, nowMs)
  {
    SelectIsLeast(a, nowMs);
    SelectIsLeast(b, nowMs);
    hide Select, IsEligible, Before;
    if Select(a, nowMs).Ok? && Select(b, nowMs).Ok? {
      var c :| IsChoice(a, nowMs, c) && c.id == Select(a, nowMs).id;
      var d :| IsChoice(b, nowMs, d) && d.id == Select(b, nowMs).id;
      assert IsChoice(a, nowMs, d);
      ChoiceIsUnique(a, nowMs, c, d);
    }
  }

  /** The result does not depend on the order in which the pool lists its subscriptions. */
  lemma SelectIgnoresOrder(a: seq<Candidate>, b: seq<Candidate>, nowMs: int)
    requires DistinctIds(a) && DistinctIds(b)
    requires multiset(a) == multiset(b)
    ensures Select(a, nowMs) == Select(b, nowMs)
  {
    assert forall c :: c in a <==> c in multiset(a);
    assert forall c :: c in b <==> c in multiset(b);
    SameSelection(a, b, nowMs);
    SameSoonestReset(a, b);
    hide IsEligible, SoonestReset, Ranked;
  }
}
