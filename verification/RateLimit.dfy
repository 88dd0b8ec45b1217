/** From rate-limit headers to a sample, and from a sample to the fence that selection sees. */
module RateLimit {
  import opened Domain
  import opened RetryAfter
  import opened Selection
  import opened Text

  const DEFAULT_COOLDOWN_MS := 300000

  /** A header lookup, and the host's reading of a string as a number (`None`: not finite). */
  type HeaderGet = string -> Option<string>
  type Numeral = string -> Option<real>

  function NumOrUndefined(number: Numeral, raw: Option<string>): Option<real> {
    if raw.None? || Trim(raw.value) == [] then None else number(raw.value)
  }

  function AsUnifiedStatus(raw: Option<string>): Option<UnifiedStatus> {
    if raw == Some("allowed") then Some(Allowed)
    else if raw == Some("rate_limited") then Some(RateLimited)
    else None
  }

  function AsRepresentative(raw: Option<string>): Option<Window> {
    if raw == Some("five_hour") then Some(FiveHour)
    else if raw == Some("seven_day") then Some(SevenDay)
    else None
  }

  function ComputeCooldown(httpStatus: int, status: Option<UnifiedStatus>, retryAfterS: Option<real>,
                           representativeReset: Option<real>, nowMs: int): Option<real>
  {
    if httpStatus == 429 then
      if retryAfterS.Some? then Some(nowMs as real + retryAfterS.value * 1000.0)
      else if representativeReset.Some? then Some(representativeReset.value * 1000.0)
      else Some((nowMs + DEFAULT_COOLDOWN_MS) as real)
    else if status == Some(RateLimited) then
      if representativeReset.Some? then Some(representativeReset.value * 1000.0)
      else Some((nowMs + DEFAULT_COOLDOWN_MS) as real)
    else None
  }

  /** What the headers say, as far as it can be read. */
  datatype Headers = Headers(
    status: Option<UnifiedStatus>,
    claim: Option<Window>,
    util5h: Option<real>,
    reset5h: Option<real>,
    util7d: Option<real>,
    reset7d: Option<real>,
    retryAfterS: Option<real>)

  function ReadHeaders(get: HeaderGet, number: Numeral): Headers {
    Headers(
      AsUnifiedStatus(get("anthropic-ratelimit-unified-status")),
      AsRepresentative(get("anthropic-ratelimit-unified-representative-claim")),
      NumOrUndefined(number, get("anthropic-ratelimit-unified-5h-utilization")),
      NumOrUndefined(number, get("anthropic-ratelimit-unified-5h-reset")),
      NumOrUndefined(number, get("anthropic-ratelimit-unified-7d-utilization")),
      NumOrUndefined(number, get("anthropic-ratelimit-unified-7d-reset")),
      NumOrUndefined(number, get("retry-after")))
  }

  /** The reset of the window the response calls representative, the five-hour one by default. */
  function ResetOf(h: Headers): Option<real> {
    if h.claim == Some(SevenDay) then h.reset7d else h.reset5h
  }

  function SampleOf(h: Headers, httpStatus: int, nowMs: int): Sample {
    Sample(h.status, h.claim, h.util5h, h.reset5h, h.util7d, h.reset7d,
           ComputeCooldown(httpStatus, h.status, if httpStatus == 429 then h.retryAfterS else None, ResetOf(h), nowMs))
  }

  function Parse(get: HeaderGet, number: Numeral, httpStatus: int, nowMs: int): Sample {
    SampleOf(ReadHeaders(get, number), httpStatus, nowMs)
  }

  // ---------------------------------------------------------------- malformed headers

  /** A header that is absent, blank, or no finite number reads the same: as nothing. */
  predicate Unreadable(number: Numeral, raw: Option<string>) {
    raw.None? || (forall c :: c in raw.value ==> IsSpace(c)) || number(raw.value).None?
  }

  /** Trimming empties exactly the blank strings. */
  lemma TrimsAwayIffBlank(s: string)
    ensures Trim(s) == [] <==> forall c :: c in s ==> IsSpace(c)
  {
    var start := TrimStart(s);
    StartIsBlank(s);
    assert forall i :: 0 <= i < |start| ==> start[i] in s;
    assert forall i :: 0 <= i < |Trim(s)| ==> Trim(s)[i] in s;
  }

  lemma {:induction false} StartIsBlank(s: string)
    ensures forall c :: c in s && c !in TrimStart(s) ==> IsSpace(c)
  {
    if s != [] && IsSpace(s[0]) {
      StartIsBlank(s[1..]);
      assert s == [s[0]] + s[1..];
    }
  }

  lemma UnreadableIsUnknown(number: Numeral, raw: Option<string>)
    ensures NumOrUndefined(number, raw).None? <==> Unreadable(number, raw)
    ensures !Unreadable(number, raw) ==> NumOrUndefined(number, raw) == number(raw.value)
  {
    if raw.Some? {
      TrimsAwayIffBlank(raw.value);
    }
  }

  // ---------------------------------------------------------------- when a response fences

  predicate CoolsAfter(h: Headers, nowMs: int) {
    match (h.retryAfterS, ResetOf(h))
    case (Some(seconds), _) => seconds > 0.0
    case (None, Some(reset)) => reset * 1000.0 > nowMs as real
    case (None, None) => true
  }

  /** The fence of a 429 that says nothing worse is over at time t: retry-after has passed, or
      without one the reset that selection would read from the same headers, or without that either
      five minutes. */
  predicate FenceIsOver(h: Headers, nowMs: int, t: int) {
    match (h.retryAfterS, RepresentativeResetMs(Some(SampleOf(h.(status := None), 200, nowMs))))
    case (Some(seconds), _) => (t - nowMs) as real >= 1000.0 * seconds
    case (None, Some(reset)) => t as real >= reset
    case (None, None) => t - nowMs >= 300000
  }

  /** How long a response fences, at every time t: for ever when it says rate_limited or reports a
      near-full window; otherwise not at all unless it is a 429; and a 429 until its fence is over. */
  lemma FencesExactlyUntil(h: Headers, httpStatus: int, nowMs: int, t: int)
    ensures var s := SampleOf(h, httpStatus, nowMs);
            IsEligible(Some(s), t) <==>
              Recoverable(Some(s)) && (httpStatus == 429 ==> FenceIsOver(h, nowMs, t))
  {
    hide LoadScore;
  }

  /** "A 429 always fences" is not what the code does; this is when a response leaves its
      subscription eligible at the time it arrives: when neither its status nor its load fences it
      and, for a 429, retry-after is not positive or, without one, the named reset is past. */
  lemma EligibleOnArrivalIff(h: Headers, httpStatus: int, nowMs: int)
    ensures var s := SampleOf(h, httpStatus, nowMs);
            IsEligible(Some(s), nowMs) <==>
              && h.status != Some(RateLimited)
              && LoadScore(Some(s)) < NEAR_FULL
              && (httpStatus == 429 ==> !CoolsAfter(h, nowMs))
  {
    FencesExactlyUntil(h, httpStatus, nowMs, nowMs);
    hide LoadScore;
  }

  /** A 429 that leaves its subscription eligible at once: its only hint is a reset in the past. */
  lemma PastResetDoesNotFence(nowMs: int)
    requires nowMs > 0
    ensures var h := Headers(None, None, None, Some(0.0), None, None, None);
            IsEligible(Some(SampleOf(h, 429, nowMs)), nowMs) && !CoolsAfter(h, nowMs)
  {
  }

  /** While the fence of a 429 is up, no selection picks the subscription, whatever else is in the
      pool. */
  lemma CoolingIsNeverSelected(cs: seq<Candidate>, c: Candidate, h: Headers, sampledMs: int, t: int)
    requires DistinctIds(cs) && c in cs && c.snapshot == Some(SampleOf(h, 429, sampledMs))
    requires !FenceIsOver(h, sampledMs, t)
    ensures Select(cs, t) != Ok(c.id)
  {
    SelectIsLeast(cs, t);
    FencesExactlyUntil(h, 429, sampledMs, t);
    hide Select, IsEligible, FenceIsOver, SampleOf;
    if Select(cs, t).Ok? {
      var least :| IsChoice(cs, t, least) && least.id == Select(cs, t).id;
      var i :| 0 <= i < |cs| && cs[i] == least;
      var j :| 0 <= j < |cs| && cs[j] == c;
      assert i != j;
    }
  }

  // ---------------------------------------------------------------- the score

  lemma LiteralsDiffer()
    ensures "five_hour" != "seven_day"
  {
    assert "five_hour"[0] != "seven_day"[0];
  }

  function Clamped(u: real): real { if u < 0.0 then 0.0 else if u > 1.0 then 1.0 else u }

  /** The header of the window a response calls representative decides its score alone: two responses
      that agree on the claim and on that header have the same score, whatever else they say. */
  lemma ClaimedWindowDecides(get: HeaderGet, other: HeaderGet, number: Numeral, a: int, b: int, nowMs: int, laterMs: int)
    requires var claim := get("anthropic-ratelimit-unified-representative-claim");
             && claim == other("anthropic-ratelimit-unified-representative-claim")
             && (claim == Some("seven_day") || claim == Some("five_hour"))
             && (claim == Some("seven_day") ==>
                   get("anthropic-ratelimit-unified-7d-utilization") == other("anthropic-ratelimit-unified-7d-utilization"))
             && (claim == Some("five_hour") ==>
                   get("anthropic-ratelimit-unified-5h-utilization") == other("anthropic-ratelimit-unified-5h-utilization"))
    ensures LoadScore(Some(Parse(get, number, a, nowMs))) == LoadScore(Some(Parse(other, number, b, laterMs)))
  {
    LiteralsDiffer();
    hide NumOrUndefined, ComputeCooldown, ResetOf;
  }

  /** One half for what is unknown. */
  function ScoreOf(util: Option<real>): real {
    match util
    case Some(u) => Clamped(u)
    case None => 0.5
  }

  /** From the texts of the headers to the score: the utilisation of the claimed window, kept between
      zero and one; one half when that header cannot be read, or when there is no snapshot. */
  lemma ClaimedScore(get: HeaderGet, number: Numeral, httpStatus: int, nowMs: int)
    ensures LoadScore(None) == 0.5
    ensures var claim, score := get("anthropic-ratelimit-unified-representative-claim"), LoadScore(Some(Parse(get, number, httpStatus, nowMs)));
            && (claim == Some("five_hour") ==>
                  score == ScoreOf(NumOrUndefined(number, get("anthropic-ratelimit-unified-5h-utilization"))))
            && (claim == Some("seven_day") ==>
                  score == ScoreOf(NumOrUndefined(number, get("anthropic-ratelimit-unified-7d-utilization"))))
  {
    LiteralsDiffer();
    hide NumOrUndefined, ComputeCooldown, ResetOf;
  }

  /** Without a claim the worse window counts: the score is at least that of either reported window,
      is that of one of them, and is one half when neither is reported. */
  lemma WorseWindowCounts(h: Headers, httpStatus: int, nowMs: int)
    requires h.claim.None?
    ensures var score := LoadScore(Some(SampleOf(h, httpStatus, nowMs)));
            && (h.util5h.Some? ==> score >= Clamped(h.util5h.value))
            && (h.util7d.Some? ==> score >= Clamped(h.util7d.value))
            && (|| (h.util5h.Some? && score == Clamped(h.util5h.value))
                || (h.util7d.Some? && score == Clamped(h.util7d.value))
                || (h.util5h.None? && h.util7d.None? && score == 0.5))
  {
    hide ComputeCooldown;
  }

  /** The reset header of the claimed window, the five-hour one by default. */
  function ResetHeader(get: HeaderGet): Option<string> {
    if get("anthropic-ratelimit-unified-representative-claim") == Some("seven_day")
    then get("anthropic-ratelimit-unified-7d-reset") else get("anthropic-ratelimit-unified-5h-reset")
  }

  lemma StatusWords()
    ensures "allowed" != "rate_limited"
  {
    assert "allowed"[0] != "rate_limited"[0];
  }

  lemma HeadersRead(get: HeaderGet, number: Numeral)
    ensures var h := ReadHeaders(get, number);
            && (h.status == Some(RateLimited) <==> get("anthropic-ratelimit-unified-status") == Some("rate_limited"))
            && h.retryAfterS == NumOrUndefined(number, get("retry-after"))
            && ResetOf(h) == NumOrUndefined(number, ResetHeader(get))
  {
    StatusWords();
    LiteralsDiffer();
    hide NumOrUndefined;
  }

  lemma ResetIsRead(h: Headers, nowMs: int)
    ensures RepresentativeResetMs(Some(SampleOf(h.(status := None), 200, nowMs))) ==
              match ResetOf(h) case Some(reset) => Some(reset * 1000.0) case None => None
  {
  }

  /** From the header texts to the fence: a response fences at time t exactly when its
      `anthropic-ratelimit-unified-status` is the word `rate_limited`, or its score is 0.98 or more, or
      it is a 429 and the wait is not over that `retry-after` asks for, or without a readable one the
      reset of its claimed window, or without that one either five minutes. */
  lemma HeadersFence(get: HeaderGet, number: Numeral, httpStatus: int, nowMs: int, t: int)
    ensures var s := Parse(get, number, httpStatus, nowMs);
            !IsEligible(Some(s), t) <==>
              || get("anthropic-ratelimit-unified-status") == Some("rate_limited")
              || LoadScore(Some(s)) >= 0.98
              || (httpStatus == 429
                  && match (NumOrUndefined(number, get("retry-after")), NumOrUndefined(number, ResetHeader(get)))
                     case (Some(seconds), _) => (t - nowMs) as real < 1000.0 * seconds
                     case (None, Some(reset)) => t as real < reset * 1000.0
                     case (None, None) => t - nowMs < 300000)
  {
    var h := ReadHeaders(get, number);
    HeadersRead(get, number);
    ResetIsRead(h, nowMs);
    FencesExactlyUntil(h, httpStatus, nowMs, t);
    RecoverableMeans(h, httpStatus, nowMs);
    hide ReadHeaders, NumOrUndefined, LoadScore, SampleOf, IsEligible, ResetOf, Recoverable, ResetHeader, RepresentativeResetMs;
  }

  /** The reset a response names to the retry hint: what `retry-after` of a 429 asks for; otherwise the
      reset of its claimed window; without a readable one five minutes if it limits, or none. */
  lemma HeadersNameReset(get: HeaderGet, number: Numeral, httpStatus: int, nowMs: int)
    ensures RepresentativeResetMs(Some(Parse(get, number, httpStatus, nowMs))) ==
              match (NumOrUndefined(number, get("retry-after")), NumOrUndefined(number, ResetHeader(get))) {
                case (Some(seconds), reset) =>
                  if httpStatus == 429 then Some(nowMs as real + 1000.0 * seconds)
                  else NamedReset(reset, get("anthropic-ratelimit-unified-status") == Some("rate_limited"), nowMs)
                case (None, reset) =>
                  NamedReset(reset, httpStatus == 429 || get("anthropic-ratelimit-unified-status") == Some("rate_limited"), nowMs)
              }
  {
    HeadersRead(get, number);
    hide ReadHeaders, NumOrUndefined, ResetHeader;
  }

  function NamedReset(reset: Option<real>, limits: bool, nowMs: int): Option<real> {
    match reset
    case Some(r) => Some(1000.0 * r)
    case None => if limits then Some((nowMs + 300000) as real) else None
  }

  lemma RecoverableMeans(h: Headers, httpStatus: int, nowMs: int)
    ensures Recoverable(Some(SampleOf(h, httpStatus, nowMs))) <==>
              h.status != Some(RateLimited) && LoadScore(Some(SampleOf(h, httpStatus, nowMs))) < 0.98
  {
    hide LoadScore;
  }

  // ---------------------------------------------------------------- retry-after, relayed

  /** A 429 with a whole retry-after, read at `sampledMs`. */
  datatype Told = Told(h: Headers, seconds: nat, sampledMs: int)

  function SampleOfTold(told: Told): Sample { SampleOf(told.h, 429, told.sampledMs) }

  function Remaining(told: Told, nowMs: int): int { told.sampledMs + 1000 * told.seconds - nowMs }

  /** Its wait is still running, and nothing else fences. */
  predicate Waiting(told: Told, nowMs: int) {
    && told.h.retryAfterS == Some(told.seconds as real)
    && Recoverable(Some(SampleOfTold(told)))
    && Remaining(told, nowMs) > 0
  }

  lemma WaitingIsCooling(told: Told, c: Candidate, nowMs: int)
    requires Waiting(told, nowMs) && c.snapshot == Some(SampleOfTold(told))
    ensures OnlyCooling(c, nowMs) && Deadline(c) == (nowMs + Remaining(told, nowMs)) as real
    ensures RepresentativeResetMs(c.snapshot) == Some(Deadline(c))
  {
    hide LoadScore;
  }

  lemma RoundsUp(remaining: int, nowMs: int)
    requires remaining > 0
    ensures 0 <= 1000 * WaitSeconds((nowMs + remaining) as real, nowMs) - remaining < 1000
  {
    var x := ((nowMs + remaining) as real - nowMs as real) / 1000.0;
    assert x * 1000.0 == remaining as real;
  }

  ghost predicate AllWaiting(cs: seq<Candidate>, told: SubId -> Told, nowMs: int) {
    forall c :: c in cs ==> c.snapshot == Some(SampleOfTold(told(c.id))) && Waiting(told(c.id), nowMs)
  }

  /** Retry-After travels through the pool: when every subscription of a pool was told, with a 429, to
      wait a whole number of seconds, the waits are running and nothing else fences, the pool refuses
      with the least of the remaining waits, rounded up to whole seconds, and that is exactly how long
      it stays closed. */
  lemma RetryAfterIsRelayed(cs: seq<Candidate>, told: SubId -> Told, nowMs: int) returns (first: Candidate)
    requires DistinctIds(cs) && cs != [] && AllWaiting(cs, told, nowMs)
    ensures Select(cs, nowMs).NoCapacity? && HintIsExact(cs, nowMs)
    ensures first in cs && forall d :: d in cs ==> Remaining(told(first.id), nowMs) <= Remaining(told(d.id), nowMs)
    ensures 0 <= 1000 * Select(cs, nowMs).retryAfterSeconds - Remaining(told(first.id), nowMs) < 1000
  {
    forall c | c in cs
      ensures OnlyCooling(c, nowMs) && RepresentativeResetMs(c.snapshot) == Some((nowMs + Remaining(told(c.id), nowMs)) as real)
    {
      WaitingIsCooling(told(c.id), c, nowMs);
    }
    RetryAfterIsExact(cs, nowMs);
    SoonestResetIsMin(cs);
    assert cs[0] in cs;
    hide HintIsExact, OnlyCooling, AllWaiting, Remaining, SoonestReset, WaitSeconds, RepresentativeResetMs;
    first :| first in cs && RepresentativeResetMs(first.snapshot) == SoonestReset(cs);
    RoundsUp(Remaining(told(first.id), nowMs), nowMs) by {
      WaitingRemains(cs, told, nowMs, first);
    }
    assert Select(cs, nowMs).retryAfterSeconds == WaitSeconds(SoonestReset(cs).value, nowMs);
  }

  lemma WaitingRemains(cs: seq<Candidate>, told: SubId -> Told, nowMs: int, c: Candidate)
    requires AllWaiting(cs, told, nowMs) && c in cs
    ensures Remaining(told(c.id), nowMs) > 0
  {
  }
}
