/** The selection use case: map the pool target, drop what was tried, rank what is left. */
module SelectSubscription {
  import opened Domain
  import opened Selection
  import RetryAfter

  /** What the use case reads about one candidate while gathering. */
  datatype Info = Info(snapshot: Option<Sample>, inFlight: nat)

  /** The rows `listByPool` returns for a principal: the active ones of its pool and provider. */
  predicate Listed(p: Principal, provider: ProviderId, s: Subscription) {
    Belongs(p, provider, s) && s.status == Active
  }

  predicate DistinctRows(pool: seq<Subscription>) {
    forall i, j :: 0 <= i < j < |pool| ==> pool[i].id != pool[j].id
  }

  function Without(pool: seq<Subscription>, exclude: set<SubId>): (r: seq<Subscription>)
    ensures forall s :: s in r <==> s in pool && s.id !in exclude
    ensures DistinctRows(pool) ==> DistinctRows(r)
  {
    if pool == [] then [] else
      var rest := Without(pool[1..], exclude);
      if pool[0].id in exclude then rest
      else
        assert DistinctRows(pool) ==> forall s :: s in rest ==> s.id != pool[0].id;
        [pool[0]] + rest
  }

  function AsCandidate(s: Subscription, info: SubId -> Info): Candidate {
    Candidate(s.id, info(s.id).snapshot, info(s.id).inFlight)
  }

  function Gather(pool: seq<Subscription>, info: SubId -> Info): (cs: seq<Candidate>)
    ensures |cs| == |pool|
    ensures forall i :: 0 <= i < |pool| ==> cs[i] == AsCandidate(pool[i], info)
  {
    seq(|pool|, i requires 0 <= i < |pool| => AsCandidate(pool[i], info))
  }

  function Find(pool: seq<Subscription>, id: SubId): (r: Option<Subscription>)
    ensures r.Some? ==> r.value in pool && r.value.id == id
    ensures r.None? ==> forall s :: s in pool ==> s.id != id
  {
    if pool == [] then None
    else if pool[0].id == id then Some(pool[0])
    else Find(pool[1..], id)
  }

  datatype Choice = Chosen(sub: Subscription) | NoCapacity(retryAfterSeconds: int)

  function Choose(pool: seq<Subscription>, exclude: set<SubId>, info: SubId -> Info, nowMs: int): (r: Choice)
    ensures r.Chosen? ==> r.sub in pool && r.sub.id !in exclude
  {
    var eligible := Without(pool, exclude);
    match Select(Gather(eligible, info), nowMs)
    case Ok(id) =>
      (match Find(eligible, id)
       case Some(s) => Chosen(s)
       case None => Choice.NoCapacity(DEFAULT_RETRY))
    case NoCapacity(retry) => Choice.NoCapacity(retry)
    case Empty => Choice.NoCapacity(DEFAULT_RETRY)
  }

  /** Whether a row may be chosen at all. */
  ghost predicate Selectable(pool: seq<Subscription>, exclude: set<SubId>, info: SubId -> Info, nowMs: int, s: Subscription) {
    s in pool && s.id !in exclude && IsEligible(info(s.id).snapshot, nowMs)
  }

  lemma Gathered(rows: seq<Subscription>, info: SubId -> Info)
    requires DistinctRows(rows)
    ensures DistinctIds(Gather(rows, info))
    ensures forall s :: s in rows ==> AsCandidate(s, info) in Gather(rows, info)
    ensures forall c :: c in Gather(rows, info) ==> exists s :: s in rows && AsCandidate(s, info) == c
    ensures forall s, t :: s in rows && t in rows && s.id == t.id ==> s == t
  {
    forall s | s in rows ensures AsCandidate(s, info) in Gather(rows, info) {
      var i :| 0 <= i < |rows| && rows[i] == s;
      assert Gather(rows, info)[i] == AsCandidate(s, info);
    }
    forall c | c in Gather(rows, info) ensures exists s :: s in rows && AsCandidate(s, info) == c {
      var i :| 0 <= i < |rows| && Gather(rows, info)[i] == c;
      assert rows[i] in rows;
    }
  }

  /** Whatever the rows, even with an id twice: what is chosen passes the fences. */
  lemma ChosenIsEligible(pool: seq<Subscription>, exclude: set<SubId>, info: SubId -> Info, nowMs: int)
    requires Choose(pool, exclude, info, nowMs).Chosen?
    ensures IsEligible(info(Choose(pool, exclude, info, nowMs).sub.id).snapshot, nowMs)
  {
    var rows := Without(pool, exclude);
    var cs := Gather(rows, info);
    var eligible := Eligible(cs, nowMs);
    var c := Ranked(eligible)[0];
    assert c in multiset(Ranked(eligible));
    assert c in eligible;
    var i :| 0 <= i < |cs| && cs[i] == c;
    assert c == AsCandidate(rows[i], info);
  }

  /** A choice is made exactly when some row may be chosen; it is such a row, and it precedes
      every other one in the selection order. */
  lemma ChooseIsLeast(pool: seq<Subscription>, exclude: set<SubId>, info: SubId -> Info, nowMs: int)
    requires DistinctRows(pool)
    ensures Choose(pool, exclude, info, nowMs).Chosen? <==> exists s :: Selectable(pool, exclude, info, nowMs, s)
    ensures Choose(pool, exclude, info, nowMs).Chosen? ==>
              var c := Choose(pool, exclude, info, nowMs).sub;
              && Selectable(pool, exclude, info, nowMs, c)
              && forall s :: Selectable(pool, exclude, info, nowMs, s) && s != c ==>
                   Before(AsCandidate(c, info), AsCandidate(s, info))
  {
    var rows := Without(pool, exclude);
    var cs := Gather(rows, info);
    Gathered(rows, info);
    SelectIsLeast(cs, nowMs);
    forall s ensures Selectable(pool, exclude, info, nowMs, s) <==>
                     s in rows && IsEligible(AsCandidate(s, info).snapshot, nowMs) {}
    if Select(cs, nowMs).Ok? {
      var least :| IsChoice(cs, nowMs, least) && least.id == Select(cs, nowMs).id;
      var c :| c in rows && AsCandidate(c, info) == least;
      assert Find(rows, least.id) == Some(c);
      assert Selectable(pool, exclude, info, nowMs, c);
    }
  }

  lemma SameCandidates(a: seq<Subscription>, b: seq<Subscription>, info: SubId -> Info)
    requires DistinctRows(a) && DistinctRows(b) && forall s :: s in a <==> s in b
    ensures forall c :: c in Gather(a, info) <==> c in Gather(b, info)
    ensures Gather(a, info) == [] <==> Gather(b, info) == []
  {
    Gathered(a, info);
    Gathered(b, info);
    assert a != [] ==> a[0] in b;
    assert b != [] ==> b[0] in a;
  }

  /** The order in which the pool is listed, which the query leaves open, does not matter: two
      listings of the same rows give the same choice, or the same retry hint. */
  lemma ChooseIgnoresOrder(a: seq<Subscription>, b: seq<Subscription>, exclude: set<SubId>, info: SubId -> Info, nowMs: int)
    requires DistinctRows(a) && DistinctRows(b) && forall s :: s in a <==> s in b
    ensures Choose(a, exclude, info, nowMs) == Choose(b, exclude, info, nowMs)
  {
    var p, q := Without(a, exclude), Without(b, exclude);
    var cs, ds := Gather(p, info), Gather(q, info);
    Gathered(p, info);
    Gathered(q, info);
    SameCandidates(p, q, info);
    SameSelection(cs, ds, nowMs);
    SameSoonestReset(cs, ds);
    if !Select(cs, nowMs).Ok? {
      SameRejection(cs, ds, nowMs);
    }
    assert Select(cs, nowMs) == Select(ds, nowMs);
    hide Select, Gather, Without;
    if Select(cs, nowMs).Ok? {
      SameFind(p, q, Select(cs, nowMs).id);
    }
  }

  lemma SameRejection(cs: seq<Candidate>, ds: seq<Candidate>, nowMs: int)
    requires (cs == [] <==> ds == []) && SoonestReset(cs) == SoonestReset(ds)
    requires !Select(cs, nowMs).Ok? && !Select(ds, nowMs).Ok?
    ensures Select(cs, nowMs) == Select(ds, nowMs)
  {
    hide SoonestReset, WaitSeconds;
  }

  lemma SameFind(a: seq<Subscription>, b: seq<Subscription>, id: SubId)
    requires DistinctRows(a) && DistinctRows(b) && forall s :: s in a <==> s in b
    ensures Find(a, id) == Find(b, id)
  {
    if Find(a, id).Some? && Find(b, id).Some? {
      var i :| 0 <= i < |a| && a[i] == Find(a, id).value;
      assert Find(b, id).value in a;
      var k :| 0 <= k < |a| && a[k] == Find(b, id).value;
    }
  }

  /** The retry hint of the rows not excluded; thirty seconds when there are none. */
  function HintFor(pool: seq<Subscription>, exclude: set<SubId>, info: SubId -> Info, nowMs: int): int {
    var rows := Without(pool, exclude);
    if rows == [] then 30 else RetryHint(Gather(rows, info), nowMs)
  }

  /** A refusal carries the hint of the candidates that were considered. */
  lemma RefusalIsHint(pool: seq<Subscription>, exclude: set<SubId>, info: SubId -> Info, nowMs: int)
    requires DistinctRows(pool)
    ensures !Choose(pool, exclude, info, nowMs).Chosen? ==>
              Choose(pool, exclude, info, nowMs) == Choice.NoCapacity(HintFor(pool, exclude, info, nowMs))
  {
    ChooseIsLeast(pool, exclude, info, nowMs);
    var rows := Without(pool, exclude);
    var cs := Gather(rows, info);
    Gathered(rows, info);
    SelectIsLeast(cs, nowMs);
    if Select(cs, nowMs).Ok? {
      var c :| IsChoice(cs, nowMs, c);
      var s :| s in rows && AsCandidate(s, info) == c;
      assert Selectable(pool, exclude, info, nowMs, s);
    }
  }

  /** The retry hint is exact for the use case too: when every row that may be tried is fenced by
      nothing but a future cooldown, it refuses with the least whole number of seconds after which the
      same rows and snapshots give a choice. */
  lemma RefusalIsExact(pool: seq<Subscription>, exclude: set<SubId>, info: SubId -> Info, nowMs: int)
    requires DistinctRows(pool) && Without(pool, exclude) != []
    requires forall s :: s in Without(pool, exclude) ==> RetryAfter.OnlyCooling(AsCandidate(s, info), nowMs)
    ensures Choose(pool, exclude, info, nowMs).NoCapacity?
    ensures forall k: nat :: Choose(pool, exclude, info, nowMs + 1000 * k).Chosen?
              <==> k >= Choose(pool, exclude, info, nowMs).retryAfterSeconds
  {
    hide *;
    var rows := Without(pool, exclude);
    var cs := Gather(rows, info);
    RowsAreDistinct(pool, exclude);
    AllCooling(rows, info, nowMs);
    RetryAfter.RetryAfterIsExact(cs, nowMs);
    ChosenIffSelected(pool, exclude, info, nowMs);
    HintMeans(cs, nowMs);
    forall k: nat
      ensures Choose(pool, exclude, info, nowMs + 1000 * k).Chosen?
         <==> k >= Choose(pool, exclude, info, nowMs).retryAfterSeconds
    {
      ChosenIffSelected(pool, exclude, info, nowMs + 1000 * k);
      assert RetryAfter.OpensAfter(cs, nowMs, k) <==> k >= Select(cs, nowMs).retryAfterSeconds;
      OpensMeans(cs, nowMs, k);
    }
  }

  lemma RowsAreDistinct(pool: seq<Subscription>, exclude: set<SubId>)
    requires DistinctRows(pool)
    ensures DistinctRows(Without(pool, exclude))
  {
  }

  lemma AllCooling(rows: seq<Subscription>, info: SubId -> Info, nowMs: int)
    requires DistinctRows(rows) && rows != []
    requires forall s :: s in rows ==> RetryAfter.OnlyCooling(AsCandidate(s, info), nowMs)
    ensures DistinctIds(Gather(rows, info)) && Gather(rows, info) != []
    ensures forall c :: c in Gather(rows, info) ==> RetryAfter.OnlyCooling(c, nowMs)
  {
    Gathered(rows, info);
    hide RetryAfter.OnlyCooling;
    forall c | c in Gather(rows, info) ensures RetryAfter.OnlyCooling(c, nowMs) {
      var s :| s in rows && AsCandidate(s, info) == c;
    }
    assert Gather(rows, info)[0] == AsCandidate(rows[0], info);
  }

  lemma HintMeans(cs: seq<Candidate>, nowMs: int)
    requires Select(cs, nowMs).NoCapacity? && RetryAfter.HintIsExact(cs, nowMs)
    ensures forall k: nat :: RetryAfter.OpensAfter(cs, nowMs, k) <==> k >= Select(cs, nowMs).retryAfterSeconds
  {
    hide Select, RetryAfter.OpensAfter;
  }

  lemma OpensMeans(cs: seq<Candidate>, nowMs: int, k: nat)
    ensures RetryAfter.OpensAfter(cs, nowMs, k) <==> Select(cs, nowMs + 1000 * k).Ok?
  {
    hide Select;
  }

  lemma ChosenIffSelected(pool: seq<Subscription>, exclude: set<SubId>, info: SubId -> Info, nowMs: int)
    requires DistinctRows(pool)
    ensures var result := Select(Gather(Without(pool, exclude), info), nowMs);
            && (Choose(pool, exclude, info, nowMs).Chosen? <==> result.Ok?)
            && (result.NoCapacity? ==> Choose(pool, exclude, info, nowMs) == Choice.NoCapacity(result.retryAfterSeconds))
  {
    var rows := Without(pool, exclude);
    var cs := Gather(rows, info);
    Gathered(rows, info);
    SelectIsLeast(cs, nowMs);
    if Select(cs, nowMs).Ok? {
      var c :| IsChoice(cs, nowMs, c) && c.id == Select(cs, nowMs).id;
      var s :| s in rows && AsCandidate(s, info) == c;
      assert Find(rows, c.id).Some?;
    }
  }
}
