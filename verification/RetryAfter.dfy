/** How the retry hint relates to the moment a fenced pool opens again. */
module RetryAfter {
  import opened Domain
  import opened Selection

  /** Nothing but a cooldown can fence this snapshot. */
  predicate Recoverable(snapshot: Option<Sample>) {
    snapshot.None? || (snapshot.value.unifiedStatus != Some(RateLimited) && LoadScore(snapshot) < NEAR_FULL)
  }

  /** The documented promise that a fenced candidate "becomes eligible again once the cooldown
      passes" holds exactly for the recoverable snapshots; the others stay fenced for ever. */
  lemma EligibleAgainIff(snapshot: Option<Sample>, nowMs: int)
    ensures (exists t :: t >= nowMs && IsEligible(snapshot, t)) <==> Recoverable(snapshot)
    ensures Recoverable(snapshot) && snapshot.Some? && snapshot.value.cooldownUntil.Some? ==>
              forall t :: IsEligible(snapshot, t) <==> snapshot.value.cooldownUntil.value <= t as real
  {
    if Recoverable(snapshot) {
      var t := if snapshot.Some? && snapshot.value.cooldownUntil.Some? then
                 var later := Ceil(snapshot.value.cooldownUntil.value);
                 if later < nowMs then nowMs else later
               else nowMs;
      assert IsEligible(snapshot, t);
    }
  }

  /** A concrete snapshot with a past cooldown that no waiting makes eligible. */
  lemma RateLimitedOutlastsCooldown(nowMs: int, t: int)
    requires t >= nowMs
    ensures var s := Sample(Some(RateLimited), None, None, None, None, None, Some(nowMs as real));
            !IsEligible(Some(s), t) && !Recoverable(Some(s))
  {
  }

  function Deadline(c: Candidate): real
    requires c.snapshot.Some? && c.snapshot.value.cooldownUntil.Some?
  {
    c.snapshot.value.cooldownUntil.value
  }

  /** Fenced at `nowMs`, and only by a cooldown that ends later. */
  predicate OnlyCooling(c: Candidate, nowMs: int) {
    && Recoverable(c.snapshot)
    && c.snapshot.Some? && c.snapshot.value.cooldownUntil.Some?
    && Deadline(c) > nowMs as real
  }

  lemma WaitIsLeast(deadline: real, nowMs: int, k: nat)
    requires deadline > nowMs as real
    ensures deadline <= (nowMs + 1000 * k) as real <==> k >= WaitSeconds(deadline, nowMs)
  {
    var x := (deadline - nowMs as real) / 1000.0;
    assert deadline <= (nowMs + 1000 * k) as real <==> x <= k as real;
    assert x <= k as real <==> Ceil(x) <= k;
  }

  /** The wait grows with the deadline, and is never less than a second. */
  lemma WaitMonotone(a: real, b: real, nowMs: int)
    requires a <= b
    ensures 1 <= WaitSeconds(a, nowMs) <= WaitSeconds(b, nowMs)
  {
    assert (a - nowMs as real) / 1000.0 <= (b - nowMs as real) / 1000.0;
  }

  predicate OpensAfter(cs: seq<Candidate>, nowMs: int, k: nat) {
    Select(cs, nowMs + 1000 * k).Ok?
  }

  /** A closed pool is open again after k seconds exactly when some candidate that is only
      cooling has waited out its own cooldown. */
  lemma OpensWhenCooled(cs: seq<Candidate>, nowMs: int, k: nat)
    requires DistinctIds(cs)
    requires Select(cs, nowMs).NoCapacity?
    ensures OpensAfter(cs, nowMs, k) <==>
            exists c :: c in cs && OnlyCooling(c, nowMs) && k >= WaitSeconds(Deadline(c), nowMs)
  {
    SelectIsLeast(cs, nowMs);
    SelectIsLeast(cs, nowMs + 1000 * k);
    hide Select, LoadScore, WaitSeconds;
    forall c | c in cs
      ensures IsEligible(c.snapshot, nowMs + 1000 * k) <==>
              OnlyCooling(c, nowMs) && k >= WaitSeconds(Deadline(c), nowMs)
    {
      assert !IsEligible(c.snapshot, nowMs);
      if OnlyCooling(c, nowMs) {
        WaitIsLeast(Deadline(c), nowMs, k);
      }
    }
  }

  /** The hint never asks for too long a wait: whatever the fences, if selection succeeds after
      k whole seconds then k is at least the hint. */
  lemma HintIsNeverLate(cs: seq<Candidate>, nowMs: int, k: nat)
    requires DistinctIds(cs)
    requires Select(cs, nowMs).NoCapacity?
    requires OpensAfter(cs, nowMs, k)
    ensures k >= Select(cs, nowMs).retryAfterSeconds
  {
    OpensWhenCooled(cs, nowMs, k);
    var c :| c in cs && OnlyCooling(c, nowMs) && k >= WaitSeconds(Deadline(c), nowMs);
    SoonestResetIsMin(cs);
    WaitMonotone(SoonestReset(cs).value, Deadline(c), nowMs);
  }

  /** The hint is the least sufficient wait. */
  ghost predicate HintIsExact(cs: seq<Candidate>, nowMs: int)
    requires Select(cs, nowMs).NoCapacity?
  {
    forall k: nat :: OpensAfter(cs, nowMs, k) <==> k >= Select(cs, nowMs).retryAfterSeconds
  }

  /** The hint is exact if and only if a candidate that is only cooling is among those whose wait is
      the hint. */
  lemma HintExactWhenOwned(cs: seq<Candidate>, nowMs: int)
    requires DistinctIds(cs)
    requires Select(cs, nowMs).NoCapacity?
    ensures HintIsExact(cs, nowMs) <==>
            exists c :: c in cs && OnlyCooling(c, nowMs)
                        && WaitSeconds(Deadline(c), nowMs) == Select(cs, nowMs).retryAfterSeconds
  {
    var r := Select(cs, nowMs).retryAfterSeconds;
    SoonestResetIsMin(cs);
    if SoonestReset(cs).Some? {
      WaitMonotone(SoonestReset(cs).value, SoonestReset(cs).value, nowMs);
    }
    if exists c :: c in cs && OnlyCooling(c, nowMs) && WaitSeconds(Deadline(c), nowMs) == r {
      forall k: nat ensures OpensAfter(cs, nowMs, k) <==> k >= r {
        OpensWhenCooled(cs, nowMs, k);
        if OpensAfter(cs, nowMs, k) {
          HintIsNeverLate(cs, nowMs, k);
        }
      }
    } else if HintIsExact(cs, nowMs) {
      assert OpensAfter(cs, nowMs, r);
      OpensWhenCooled(cs, nowMs, r);
      var c :| c in cs && OnlyCooling(c, nowMs) && r >= WaitSeconds(Deadline(c), nowMs);
      WaitMonotone(SoonestReset(cs).value, Deadline(c), nowMs);
      assert false;
    }
  }

  /** A candidate that is only cooling waits no longer than any reset that any candidate names. */
  ghost predicate CoolsFirst(cs: seq<Candidate>, nowMs: int, c: Candidate) {
    && c in cs && OnlyCooling(c, nowMs)
    && forall d :: d in cs && RepresentativeResetMs(d.snapshot).Some? ==>
         WaitSeconds(Deadline(c), nowMs) <= WaitSeconds(RepresentativeResetMs(d.snapshot).value, nowMs)
  }

  lemma CoolsFirstOwnsHint(cs: seq<Candidate>, nowMs: int, c: Candidate)
    requires Select(cs, nowMs).NoCapacity? && c in cs && OnlyCooling(c, nowMs)
    ensures CoolsFirst(cs, nowMs, c) <==> WaitSeconds(Deadline(c), nowMs) == Select(cs, nowMs).retryAfterSeconds
  {
    SoonestResetIsMin(cs);
    var soonest := SoonestReset(cs).value;
    assert Select(cs, nowMs).retryAfterSeconds == WaitSeconds(soonest, nowMs);
    hide Select, WaitSeconds, SoonestReset, Recoverable;
    var first :| first in cs && RepresentativeResetMs(first.snapshot) == SoonestReset(cs);
    WaitMonotone(soonest, Deadline(c), nowMs);
    forall d | d in cs && RepresentativeResetMs(d.snapshot).Some?
      ensures WaitSeconds(soonest, nowMs) <= WaitSeconds(RepresentativeResetMs(d.snapshot).value, nowMs)
    {
      WaitMonotone(soonest, RepresentativeResetMs(d.snapshot).value, nowMs);
    }
  }

  /** Not every closed pool gets an exact hint; it does if and only if one of its candidates that are
      only cooling waits no longer, in whole seconds, than any reset named in the pool, that is,
      unless a fence that time does not lift names the soonest reset. */
  lemma HintExactIff(cs: seq<Candidate>, nowMs: int)
    requires DistinctIds(cs)
    requires Select(cs, nowMs).NoCapacity?
    ensures HintIsExact(cs, nowMs) <==> exists c :: CoolsFirst(cs, nowMs, c)
  {
    HintExactWhenOwned(cs, nowMs);
    hide Select, HintIsExact, WaitSeconds;
    forall c | c in cs && OnlyCooling(c, nowMs)
      ensures CoolsFirst(cs, nowMs, c) <==> WaitSeconds(Deadline(c), nowMs) == Select(cs, nowMs).retryAfterSeconds
    {
      CoolsFirstOwnsHint(cs, nowMs, c);
    }
  }

  function Dead(nowMs: int): Candidate {
    Candidate(0, Some(Sample(Some(RateLimited), None, None, None, None, None, Some(nowMs as real))), 0)
  }

  function Cooling(nowMs: int): Candidate {
    Candidate(1, Some(Sample(None, None, None, None, None, None, Some((nowMs + 10000) as real))), 0)
  }

  lemma OnlyCoolingOpens(nowMs: int, t: int)
    ensures !IsEligible(Dead(nowMs).snapshot, t)
    ensures IsEligible(Cooling(nowMs).snapshot, t) <==> t >= nowMs + 10000
  {
  }

  /** A pool of two whose hint is too short: a `rate_limited` snapshot whose cooldown is over next to
      one that cools for ten seconds.  The hint is one second, and the pool is still closed then. */
  lemma DeadFenceShortensHint(nowMs: int)
    ensures var cs := [Dead(nowMs), Cooling(nowMs)];
            && DistinctIds(cs)
            && Select(cs, nowMs) == NoCapacity(1)
            && !OpensAfter(cs, nowMs, 1) && OpensAfter(cs, nowMs, 10)
            && !HintIsExact(cs, nowMs)
  {
    var cs := [Dead(nowMs), Cooling(nowMs)];
    SoonestResetIsMin(cs);
    assert Dead(nowMs) in cs && Cooling(nowMs) in cs;
    assert SoonestReset(cs) == Some(nowMs as real);
    assert WaitSeconds(nowMs as real, nowMs) == 1;
    forall t: int ensures Select(cs, t).Ok? <==> t >= nowMs + 10000 {
      SelectIsLeast(cs, t);
      OnlyCoolingOpens(nowMs, t);
      hide Select, IsEligible, Dead, Cooling;
    }
    hide Ranked, Eligible, SoonestReset, IsEligible, WaitSeconds;
    assert Select(cs, nowMs) == NoCapacity(1);
    assert !OpensAfter(cs, nowMs, 1);
  }

  /** A pool fenced by nothing but future cooldowns: the hint r is the least whole number of
      seconds after which the same snapshots select a subscription. */
  lemma RetryAfterIsExact(cs: seq<Candidate>, nowMs: int)
    requires DistinctIds(cs) && cs != []
    requires forall c :: c in cs ==> OnlyCooling(c, nowMs)
    ensures Select(cs, nowMs).NoCapacity?
    ensures HintIsExact(cs, nowMs)
    ensures Select(cs, nowMs).retryAfterSeconds >= 1
  {
    SelectIsLeast(cs, nowMs);
    SoonestResetIsMin(cs);
    assert cs[0] in cs;
    var c :| c in cs && RepresentativeResetMs(c.snapshot) == SoonestReset(cs);
    WaitMonotone(Deadline(c), Deadline(c), nowMs);
    HintExactWhenOwned(cs, nowMs);
  }
}
