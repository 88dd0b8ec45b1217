/** The tables behind login and linking, and the repository operations as the engine runs them. */
module AuthStore {
  import opened Domain
  import opened SerialEngine

  datatype Key = Key(issuer: string, subject: string)

  /** A row of `pkce_sessions`. */
  datatype PkceRow = PkceRow(isLogin: bool, pool: Option<PoolKind>, owner: Option<UserId>, consumed: bool)

  datatype Store = Store(
    pkce: map<string, PkceRow>,
    users: set<UserId>,
    identities: map<Key, UserId>,
    sessions: map<string, UserId>)

  const EMPTY := Store(map[], {}, map[], map[])

  /** What a statement or a repository call yields. */
  datatype Val = Row(row: Option<PkceRow>) | Found(user: Option<UserId>) | Changed

  type StoreStmt = Store -> (Reply<Val>, Store)

  datatype RepoOp =
    | CreatePkce(state: string, row: PkceRow)
    | Consume(state: string)
    | FindIdentity(key: Key)
    | InsertUser(user: UserId)
    | LinkIdentity(key: Key, user: UserId)
    | InsertSession(hash: string, user: UserId)

  // ---------------------------------------------------------------- statements

  function SelectUnconsumed(state: string): StoreStmt {
    (db: Store) =>
      (Value(Row(if state in db.pkce && !db.pkce[state].consumed then Some(db.pkce[state]) else None)), db)
  }

  function MarkConsumed(state: string): StoreStmt {
    (db: Store) =>
      (Value(Changed),
       if state in db.pkce then db.(pkce := db.pkce[state := db.pkce[state].(consumed := true)]) else db)
  }

  /** PRIMARY KEY: a state is created once. */
  function InsertPkce(state: string, row: PkceRow): StoreStmt {
    (db: Store) =>
      if state in db.pkce then (Error, db)
      else (Value(Changed), db.(pkce := db.pkce[state := row.(consumed := false)]))
  }

  function SelectIdentity(key: Key): StoreStmt {
    (db: Store) => (Value(Found(if key in db.identities then Some(db.identities[key]) else None)), db)
  }

  function InsertUserRow(user: UserId): StoreStmt {
    (db: Store) => if user in db.users then (Error, db) else (Value(Changed), db.(users := db.users + {user}))
  }

  /** UNIQUE(issuer, subject), and the user must exist. */
  function InsertIdentity(key: Key, user: UserId): StoreStmt {
    (db: Store) =>
      if key in db.identities || user !in db.users then (Error, db)
      else (Value(Changed), db.(identities := db.identities[key := user]))
  }

  function InsertSessionRow(hash: string, user: UserId): StoreStmt {
    (db: Store) =>
      if hash in db.sessions || user !in db.users then (Error, db)
      else (Value(Changed), db.(sessions := db.sessions[hash := user]))
  }

  // ---------------------------------------------------------------- repository calls

  /** The body `consume` gives to `transaction`: read the unconsumed row, then mark it. */
  function ConsumeAct(state: string, replies: seq<Reply<Val>>): Act<Store, Val> {
    if |replies| == 0 then Do(SelectUnconsumed(state))
    else if !replies[0].Value? || !replies[0].value.Row? then Throw
    else if replies[0].value.row.None? then Return(Row(None))
    else if |replies| == 1 then Do(MarkConsumed(state))
    else if replies[1].Error? then Throw
    else Return(replies[0].value)
  }

  function Compile(op: RepoOp): Op<Store, Val> {
    match op
    case CreatePkce(state, row) => Single(InsertPkce(state, row))
    case Consume(state) => Transaction((replies: seq<Reply<Val>>) => ConsumeAct(state, replies))
    case FindIdentity(key) => Single(SelectIdentity(key))
    case InsertUser(user) => Single(InsertUserRow(user))
    case LinkIdentity(key, user) => Single(InsertIdentity(key, user))
    case InsertSession(hash, user) => Single(InsertSessionRow(hash, user))
  }

  /** What a repository call means when nothing goes wrong with its transaction: one atomic step. */
  function Atomic(op: RepoOp, db: Store): (Reply<Val>, Store) {
    match op
    case Consume(state) =>
      if state in db.pkce && !db.pkce[state].consumed then
        (Value(Row(Some(db.pkce[state]))), db.(pkce := db.pkce[state := db.pkce[state].(consumed := true)]))
      else (Value(Row(None)), db)
    case CreatePkce(state, row) => Exec(InsertPkce(state, row), db)
    case FindIdentity(key) => Exec(SelectIdentity(key), db)
    case InsertUser(user) => Exec(InsertUserRow(user), db)
    case LinkIdentity(key, user) => Exec(InsertIdentity(key, user), db)
    case InsertSession(hash, user) => Exec(InsertSessionRow(hash, user), db)
  }

  lemma ConsumeReplay(state: string, db: Store, n: nat)
    requires n >= 2
    ensures var body := Compile(Consume(state)).body;
            var r := Replay(body, db, n);
            if state in db.pkce && !db.pkce[state].consumed
            then r == ([Value(Row(Some(db.pkce[state]))), Value(Changed)], Atomic(Consume(state), db).1)
            else r == ([Value(Row(None))], db)
  {
    var body := Compile(Consume(state)).body;
    if n > 2 {
      ConsumeReplay(state, db, n - 1);
    } else {
      var first := SelectUnconsumed(state)(db).0;
      assert Replay(body, db, 0) == ([], db);
      assert body([]) == Do(SelectUnconsumed(state));
      ReplayOneMore(body, db, 0, SelectUnconsumed(state));
      assert [] + [first] == [first];
      if first.value.row.Some? {
        assert body([first]) == Do(MarkConsumed(state));
        ReplayOneMore(body, db, 1, MarkConsumed(state));
        assert Exec(MarkConsumed(state), db) == (Value(Changed), Atomic(Consume(state), db).1);
        assert [first] + [Value(Changed)] == [first, Value(Changed)];
      } else {
        assert body([first]) == Return(Row(None));
      }
    }
  }

  /** A repository call served by the engine either fails and leaves the store alone, or is the one
      atomic step it stands for. */
  lemma ServedIsAtomic(op: RepoOp, db: Store, fault: Fault, n: nat)
    requires Compile(op).Transaction? && fault != BeginFails ==> Finishes(Compile(op).body, db, n)
    ensures Alone(Compile(op), db, fault, n) == (Error, db) || Alone(Compile(op), db, fault, n) == Atomic(op, db)
    ensures fault == NoFault ==> Alone(Compile(op), db, fault, n) == Atomic(op, db)
  {
    if op.Consume? && fault != BeginFails {
      ConsumeReplay(op.state, db, n + 2);
      assert Finishes(Compile(op).body, db, n + 2);
      AloneIsDetermined(Compile(op), db, fault, n, n + 2);
    }
  }

  /** The six repository calls in terms of the tables: when each succeeds, what it gives, and what it
      changes. */
  lemma RepositoryMeaning(db: Store, state: string, row: PkceRow, key: Key, user: UserId, hash: string)
    ensures Atomic(Consume(state), db) ==
              if state in db.pkce && !db.pkce[state].consumed then
                var stored := db.pkce[state];
                (Value(Row(Some(PkceRow(stored.isLogin, stored.pool, stored.owner, false)))),
                 Store(db.pkce[state := PkceRow(stored.isLogin, stored.pool, stored.owner, true)],
                       db.users, db.identities, db.sessions))
              else (Value(Row(None)), db)
    ensures Atomic(CreatePkce(state, row), db) ==
              if state in db.pkce then (Error, db)
              else (Value(Changed), Store(db.pkce[state := PkceRow(row.isLogin, row.pool, row.owner, false)],
                                          db.users, db.identities, db.sessions))
    ensures Atomic(FindIdentity(key), db) == (Value(Found(if key in db.identities then Some(db.identities[key]) else None)), db)
    ensures Atomic(InsertUser(user), db) ==
              if user in db.users then (Error, db)
              else (Value(Changed), Store(db.pkce, db.users + {user}, db.identities, db.sessions))
    ensures Atomic(LinkIdentity(key, user), db) ==
              if key in db.identities || user !in db.users then (Error, db)
              else (Value(Changed), Store(db.pkce, db.users, db.identities[key := user], db.sessions))
    ensures Atomic(InsertSession(hash, user), db) ==
              if hash in db.sessions || user !in db.users then (Error, db)
              else (Value(Changed), Store(db.pkce, db.users, db.identities, db.sessions[hash := user]))
  {
  }

  // ---------------------------------------------------------------- what every call keeps

  /** The same flow, pool and owner; the one may be consumed and the other not. */
  predicate SameTerms(a: PkceRow, b: PkceRow) {
    a.isLogin == b.isLogin && a.pool == b.pool && a.owner == b.owner
  }

  /** Rows of `pkce_sessions` stay as they were begun and stay consumed; identities stay linked to
      their user; sessions stay their user's. */
  ghost predicate Extends(db: Store, later: Store) {
    && (forall s :: s in db.pkce ==>
          s in later.pkce && SameTerms(db.pkce[s], later.pkce[s]) && (db.pkce[s].consumed ==> later.pkce[s].consumed))
    && (forall k :: k in db.identities ==> k in later.identities && later.identities[k] == db.identities[k])
    && (forall h :: h in db.sessions ==> h in later.sessions && later.sessions[h] == db.sessions[h])
  }

  lemma AtomicExtends(op: RepoOp, db: Store)
    ensures Extends(db, Atomic(op, db).1)
  {
  }

  lemma ExtendsTransitive(a: Store, b: Store, c: Store)
    requires Extends(a, b) && Extends(b, c)
    ensures Extends(a, c)
  {
  }

  /** A call that was served either failed and left the store alone, or was its atomic step. */
  ghost predicate ServedAs(op: RepoOp, outcome: Reply<Val>, db: Store, after: Store) {
    (outcome, after) == (Error, db) || (outcome, after) == Atomic(op, db)
  }

  lemma ServedExtends(op: RepoOp, outcome: Reply<Val>, db: Store, after: Store)
    requires ServedAs(op, outcome, db, after)
    ensures Extends(db, after)
  {
    AtomicExtends(op, db);
    hide Atomic;
  }
}
