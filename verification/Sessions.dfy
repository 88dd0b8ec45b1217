/** Management sessions: minted with an expiry, resolved by the hash of their token, revoked by
    logout. */
module Sessions {
  import opened Domain
  import opened Timestamps

  datatype Session = Session(id: string, user: UserId, expiresAt: string, revokedAt: Option<string>)

  /** The table, keyed by its unique `session_hash`. */
  type Rows = map<string, Session>

  predicate IdTaken(rows: Rows, id: string) {
    exists h :: h in rows && rows[h].id == id
  }

  /** INSERT, refused when the id or the hash is taken. */
  function Inserted(rows: Rows, hash: string, s: Session): Rows {
    if hash in rows || IdTaken(rows, s.id) then rows else rows[hash := s.(revokedAt := None)]
  }

  /** UPDATE, of the row with that id unless it is revoked already. */
  function WithRevoked(rows: Rows, id: string, at: string): Rows {
    map h | h in rows :: if rows[h].id == id && rows[h].revokedAt.None? then rows[h].(revokedAt := Some(at)) else rows[h]
  }

  /** The verdict on a row, at the time of the comparison; `<=` on strings is "not preceded by". */
  function Verdict(stored: Option<Session>, nowMs: int): Option<UserId>
    requires InRange(nowMs)
  {
    if stored.None? || stored.value.revokedAt.Some? then None
    else if !Precedes(Iso(nowMs), stored.value.expiresAt) then None
    else Some(stored.value.user)
  }

  function Find(rows: Rows, hash: string): Option<Session> {
    if hash in rows then Some(rows[hash]) else None
  }

  class AuthService {
    const hashSecret: string -> string
    const sessionTtlMs: int
    var rows: Rows

    constructor (hashSecret: string -> string, sessionTtlMs: int)
      ensures this.sessionTtlMs == sessionTtlMs && rows == map[]
    {
      this.hashSecret := hashSecret;
      this.sessionTtlMs := sessionTtlMs;
      rows := map[];
    }

    /** The last part of `completeLogin`. */
    method Mint(token: string, id: string, user: UserId, nowMs: int) returns (expiresAt: Option<string>)
      requires InRange(nowMs + sessionTtlMs)
      modifies this
      ensures expiresAt.Some? <==> hashSecret(token) !in old(rows) && !IdTaken(old(rows), id)
      ensures expiresAt.Some? ==> expiresAt.value == Iso(nowMs + sessionTtlMs)
      ensures rows == Inserted(old(rows), hashSecret(token), Session(id, user, Iso(nowMs + sessionTtlMs), None))
    {
      var text := Iso(nowMs + sessionTtlMs);
      if hashSecret(token) in rows || IdTaken(rows, id) {
        return None;
      }
      rows := rows[hashSecret(token) := Session(id, user, text, None)];
      return Some(text);
    }

    method ResolveSession(token: string, nowMs: int) returns (user: Option<UserId>)
      requires InRange(nowMs)
      ensures user == Verdict(Find(rows, hashSecret(token)), nowMs)
    {
      var stored := Find(rows, hashSecret(token));
      if stored.None? || stored.value.revokedAt.Some? {
        return None;
      }
      if !Precedes(Iso(nowMs), stored.value.expiresAt) {
        return None;
      }
      return Some(stored.value.user);
    }

    method Logout(token: string, nowMs: int)
      requires InRange(nowMs)
      modifies this
      ensures hashSecret(token) in old(rows) ==>
                rows == WithRevoked(old(rows), old(rows)[hashSecret(token)].id, Iso(nowMs))
      ensures hashSecret(token) !in old(rows) ==> rows == old(rows)
    {
      var stored := Find(rows, hashSecret(token));
      if stored.None? {
        return;
      }
      var id, at := stored.value.id, Iso(nowMs);
      rows := map h | h in rows :: if rows[h].id == id && rows[h].revokedAt.None? then rows[h].(revokedAt := Some(at)) else rows[h];
    }
  }

  // ---------------------------------------------------------------- every schedule

  datatype State = State(clock: int, rows: Rows)

  /** The statements of any number of concurrent logins and logouts reach the table in some order;
      an insert carries the time at which its session was minted. */
  datatype Action =
    | Elapse(ms: nat)
    | Insert(hash: string, id: string, user: UserId, mintedMs: int)
    | Revoke(id: string)

  predicate Enabled(ttl: int, s: State, a: Action) {
    match a
    case Insert(_, _, _, mintedMs) => mintedMs <= s.clock && InRange(mintedMs + ttl)
    case _ => true
  }

  function Next(ttl: int, s: State, a: Action): State
    requires Enabled(ttl, s, a) && InRange(s.clock)
  {
    match a
    case Elapse(ms) => s.(clock := s.clock + ms)
    case Insert(hash, id, user, mintedMs) =>
      s.(rows := Inserted(s.rows, hash, Session(id, user, Iso(mintedMs + ttl), None)))
    case Revoke(id) => s.(rows := WithRevoked(s.rows, id, Iso(s.clock)))
  }

  ghost predicate StepsTo(ttl: int, s: State, a: Action, s': State) {
    InRange(s.clock) && InRange(s'.clock) && Enabled(ttl, s, a) && s' == Next(ttl, s, a)
  }

  ghost predicate IsRun(ttl: int, states: seq<State>, actions: seq<Action>) {
    && |states| == |actions| + 1
    && InRange(states[0].clock) && states[0].rows == map[]
    && forall i :: 0 <= i < |actions| ==> StepsTo(ttl, states[i], actions[i], states[i + 1])
  }

  /** Step i of the run mints the session: its insert is accepted. */
  predicate Mints(states: seq<State>, actions: seq<Action>, i: nat) {
    && i < |actions| && i < |states| && actions[i].Insert?
    && actions[i].hash !in states[i].rows && !IdTaken(states[i].rows, actions[i].id)
  }

  /** What becomes of the minted row: it stays, and is revoked by the first revoke of its id. */
  lemma {:induction false} MintedRowStays(ttl: int, states: seq<State>, actions: seq<Action>, i: nat, n: nat)
    requires IsRun(ttl, states, actions) && Mints(states, actions, i) && i < n < |states|
    ensures InRange(states[n].clock) && InRange(actions[i].mintedMs + ttl)
    ensures var h, rows := actions[i].hash, states[n].rows;
            && h in rows && rows[h].id == actions[i].id && rows[h].user == actions[i].user
            && rows[h].expiresAt == Iso(actions[i].mintedMs + ttl)
            && (rows[h].revokedAt.Some? <==> exists j :: i < j < n && actions[j] == Revoke(actions[i].id))
  {
    hide Iso, InRange;
    assert StepsTo(ttl, states[n - 1], actions[n - 1], states[n - 1 + 1]);
    if n - 1 > i {
      MintedRowStays(ttl, states, actions, i, n - 1);
    }
  }

  lemma {:induction false} ClockIsMonotone(ttl: int, states: seq<State>, actions: seq<Action>, m: nat, n: nat)
    requires IsRun(ttl, states, actions) && m <= n < |states|
    ensures InRange(states[m].clock) && InRange(states[n].clock) && states[m].clock <= states[n].clock
  {
    hide Iso, InRange, Inserted, WithRevoked;
    if n > 0 {
      assert StepsTo(ttl, states[n - 1], actions[n - 1], states[n - 1 + 1]);
    }
    if m < n {
      ClockIsMonotone(ttl, states, actions, m, n - 1);
    }
  }

  /** A resolution reads the row in state m and compares its expiry in the same state or a later
      one, n. */
  function Resolution(states: seq<State>, hash: string, m: nat, n: nat): Option<UserId>
    requires m < |states| && n < |states| && InRange(states[n].clock)
  {
    Verdict(Find(states[m].rows, hash), states[n].clock)
  }

  /** A minted session resolves, to its own user, exactly while nobody has revoked it and the clock
      is below its expiry in milliseconds. */
  lemma ResolvesExactly(ttl: int, states: seq<State>, actions: seq<Action>, i: nat, m: nat, n: nat)
    requires IsRun(ttl, states, actions) && Mints(states, actions, i) && i < m <= n < |states|
    ensures InRange(states[n].clock)
    ensures Resolution(states, actions[i].hash, m, n) ==
              if (forall j :: i < j < m ==> actions[j] != Revoke(actions[i].id))
                 && states[n].clock < actions[i].mintedMs + ttl
              then Some(actions[i].user) else None
  {
    MintedRowStays(ttl, states, actions, i, m);
    ClockIsMonotone(ttl, states, actions, m, n);
    hide IsRun, InRange, Iso, Precedes;
    StringOrderIsTimeOrder(states[n].clock, actions[i].mintedMs + ttl);
  }

  /** Once a minted session fails to resolve, no resolution that starts later resolves it. */
  lemma NeverResolvesAgain(ttl: int, states: seq<State>, actions: seq<Action>, i: nat, m: nat, n: nat, m': nat, n': nat)
    requires IsRun(ttl, states, actions) && Mints(states, actions, i)
    requires i < m <= n <= m' <= n' < |states|
    requires InRange(states[n].clock) && InRange(states[n'].clock)
    requires Resolution(states, actions[i].hash, m, n).None?
    ensures Resolution(states, actions[i].hash, m', n').None?
  {
    ResolvesExactly(ttl, states, actions, i, m, n);
    ResolvesExactly(ttl, states, actions, i, m', n');
    ClockIsMonotone(ttl, states, actions, n, n');
    hide Resolution, IsRun, InRange, Mints;
  }
}
