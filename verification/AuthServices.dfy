/** The login and linking services as their code writes them, each running among others on one
    database. */
module AuthServices {
  import opened Domain
  import opened SerialEngine
  import opened AuthStore
  import opened AuthFlows

  /** A call made on the store, and its answer. */
  datatype Served = Served(op: RepoOp, reply: Reply<Val>)

  /** The store behind the serial engine, seen by one caller: each of its calls is served atomically or
      fails, and calls of others are served before and after it.  `calls` are this caller's own. */
  class SharedStore {
    var db: Store
    var calls: seq<Served>

    constructor ()
      ensures db == EMPTY && calls == []
    {
      db, calls := EMPTY, [];
    }

    method Elsewhere()
      modifies this`db
      ensures Extends(old(db), db)
    {
      var count: int := *;
      for i := 0 to if count < 0 then 0 else count
        invariant Extends(old(db), db)
      {
        var op: RepoOp := *;
        AtomicExtends(op, db);
        ExtendsTransitive(old(db), db, Atomic(op, db).1);
        hide *;
        db := Atomic(op, db).1;
      }
    }

    /** The store changed from `before` to `after` at the one moment the call was served. */
    method Call(op: RepoOp) returns (reply: Reply<Val>, ghost before: Store, ghost after: Store)
      modifies this
      ensures Extends(old(db), before) && ServedAs(op, reply, before, after) && Extends(after, db)
      ensures Extends(old(db), db) && calls == old(calls) + [Served(op, reply)]
    {
      Elsewhere();
      before := db;
      var fails: bool := *;
      if fails {
        reply := Error;
      } else {
        var (r, next) := Atomic(op, db);
        reply, db := r, next;
      }
      after := db;
      calls := calls + [Served(op, reply)];
      Elsewhere();
      ServedExtends(op, reply, before, after);
      ExtendsTransitive(old(db), before, after);
      ExtendsTransitive(old(db), after, db);
    }
  }

  ghost predicate Used(db: Store, state: string) {
    state in db.pkce && db.pkce[state].consumed
  }

  ghost predicate Linked(db: Store, key: Key, user: UserId) {
    key in db.identities && db.identities[key] == user
  }

  ghost predicate HasSession(db: Store, hash: string, user: UserId) {
    hash in db.sessions && db.sessions[hash] == user
  }

  ghost predicate HasTerms(db: Store, state: string, row: PkceRow) {
    state in db.pkce && SameTerms(db.pkce[state], row)
  }

  /** The row a call of `consume` gave, if it gave one. */
  function RowOf(reply: Reply<Val>): Option<PkceRow> {
    if reply.Value? && reply.value.Row? then reply.value.row else None
  }

  class SqlitePkceSessionRepository {
    const store: SharedStore

    constructor (store: SharedStore)
      ensures this.store == store
    {
      this.store := store;
    }

    /** One insert; `false` when it fails, as it does when the state is taken. */
    method Create(state: string, row: PkceRow) returns (created: bool)
      modifies store
      ensures Extends(old(store.db), store.db)
      ensures |store.calls| == |old(store.calls)| + 1 && store.calls[..|old(store.calls)|] == old(store.calls)
      ensures store.calls[|old(store.calls)|].op == CreatePkce(state, row)
      ensures created <==> store.calls[|old(store.calls)|].reply.Value?
      ensures created ==> state !in old(store.db).pkce && HasTerms(store.db, state, row)
    {
      var reply, before, after := store.Call(CreatePkce(state, row));
      created := reply.Value?;
    }

    /** Single use: whoever gets the row gets it as it is stored, the state was unused before and is
        used afterwards; who gets none found it missing or used. */
    method ConsumeOnce(state: string) returns (reply: Reply<Val>)
      modifies store
      ensures Extends(old(store.db), store.db)
      ensures store.calls == old(store.calls) + [Served(Consume(state), reply)]
      ensures reply.Value? ==> reply.value.Row?
      ensures RowOf(reply).Some? ==> !Used(old(store.db), state) && Used(store.db, state)
      ensures RowOf(reply).Some? ==> HasTerms(store.db, state, RowOf(reply).value)
      ensures RowOf(reply).Some? && state in old(store.db).pkce ==> HasTerms(old(store.db), state, RowOf(reply).value)
      ensures reply.Value? && RowOf(reply).None? ==> state !in old(store.db).pkce || Used(store.db, state)
    {
      ghost var before, after;
      reply, before, after := store.Call(Consume(state));
    }
  }

  // ---------------------------------------------------------------- login

  /** The calls that look a user up or make one, and what comes of their answers. */
  ghost predicate ResolveCalls(key: Key, newUser: UserId, made: seq<Served>, user: Option<UserId>) {
    && 1 <= |made| && made[0].op == FindIdentity(key)
    && if !(made[0].reply.Value? && made[0].reply.value.Found?) then |made| == 1 && user.None?
       else if made[0].reply.value.user.Some? then |made| == 1 && user == made[0].reply.value.user
       else
         && 2 <= |made| && made[1].op == InsertUser(newUser)
         && if made[1].reply.Error? then |made| == 2 && user.None?
            else |made| == 3 && made[2].op == LinkIdentity(key, newUser)
                 && user == if made[2].reply.Error? then None else Some(newUser)
  }

  /** The calls of a whole login: `consume`; then, with a login's row and an exchanged code, the user;
      then, with a user, the session.  The login succeeds exactly when all of them do. */
  ghost predicate LoginCalls(state: string, exchange: Option<Key>, newUser: UserId, hash: string,
                             made: seq<Served>, user: Option<UserId>) {
    && 1 <= |made| && made[0].op == Consume(state)
    && var row := RowOf(made[0].reply);
       if row.None? || !row.value.isLogin || exchange.None? then |made| == 1 && user.None?
       else
         || (ResolveCalls(exchange.value, newUser, made[1..], None) && user.None?)
         || (&& 3 <= |made|
             && var last := made[|made| - 1];
                && last.op.InsertSession? && last.op.hash == hash
                && ResolveCalls(exchange.value, newUser, made[1..|made| - 1], Some(last.op.user))
                && user == if last.reply.Error? then None else Some(last.op.user))
  }

  /** A found or a made link, seen from the store as it was and as it is later. */
  lemma FoundMeans(key: Key, reply: Reply<Val>, first: Store, before: Store, after: Store, later: Store)
    requires Extends(first, before) && ServedAs(FindIdentity(key), reply, before, after) && Extends(after, later)
    requires reply.Value? && reply.value.Found? && reply.value.user.Some?
    ensures Linked(later, key, reply.value.user.value)
    ensures key in first.identities ==> first.identities[key] == reply.value.user.value
  {
  }

  lemma LinkMeans(key: Key, user: UserId, reply: Reply<Val>, first: Store, before: Store, after: Store, later: Store)
    requires Extends(first, before) && ServedAs(LinkIdentity(key, user), reply, before, after) && Extends(after, later)
    requires reply.Value?
    ensures Linked(later, key, user) && key !in first.identities
  {
  }

  lemma SessionMeans(hash: string, user: UserId, reply: Reply<Val>, first: Store, before: Store, after: Store, later: Store)
    requires Extends(first, before) && ServedAs(InsertSession(hash, user), reply, before, after) && Extends(after, later)
    requires reply.Value?
    ensures HasSession(later, hash, user) && hash !in first.sessions
  {
  }

  lemma LinkedStays(key: Key, user: UserId, db: Store, later: Store)
    requires Linked(db, key, user) && Extends(db, later)
    ensures Linked(later, key, user)
  {
  }

  lemma UsedStays(state: string, db: Store, later: Store)
    requires Used(db, state) && Extends(db, later)
    ensures Used(later, state)
  {
  }

  class AuthService {
    const store: SharedStore
    const pkce: SqlitePkceSessionRepository

    constructor (store: SharedStore, pkce: SqlitePkceSessionRepository)
      requires pkce.store == store
      ensures this.store == store && this.pkce == pkce
    {
      this.store := store;
      this.pkce := pkce;
    }

    /** The user of an external identity, looked up or made; `None` when a statement throws. */
    method ResolveOrCreateUser(key: Key, newUser: UserId) returns (user: Option<UserId>, made: seq<Served>)
      modifies store
      ensures Extends(old(store.db), store.db) && store.calls == old(store.calls) + made
      ensures made != [] && ResolveCalls(key, newUser, made, user)
      ensures user.Some? ==> Linked(store.db, key, user.value)
      ensures user.Some? && key in old(store.db).identities ==> user.value == old(store.db).identities[key]
    {
      hide Extends, ServedAs, Linked;
      ghost var first := store.db;
      var reply, before, after := store.Call(FindIdentity(key));
      made := [Served(FindIdentity(key), reply)];
      if !(reply.Value? && reply.value.Found?) {
        return None, made;
      }
      if reply.value.user.Some? {
        FoundMeans(key, reply, first, before, after, store.db);
        return reply.value.user, made;
      }
      ghost var found := store.db;
      reply, before, after := store.Call(InsertUser(newUser));
      made := made + [Served(InsertUser(newUser), reply)];
      ExtendsTransitive(first, found, store.db);
      if reply.Error? {
        return None, made;
      }
      ghost var inserted := store.db;
      reply, before, after := store.Call(LinkIdentity(key, newUser));
      made := made + [Served(LinkIdentity(key, newUser), reply)];
      ExtendsTransitive(first, inserted, before);
      ExtendsTransitive(first, inserted, store.db);
      if reply.Error? {
        return None, made;
      }
      LinkMeans(key, newUser, reply, first, before, after, store.db);
      user := Some(newUser);
    }

    /** A login whose code is exchanged for `exchange` (`None`: the exchange throws).  When a user is
        returned, a session for that user was minted, under a hash that had none; the external identity
        is linked to that user; and the call used up its state, whatever other calls do meanwhile.
        Nobody is returned only when one of its own calls says so. */
    method CompleteLogin(state: string, exchange: Option<Key>, newUser: UserId, hash: string)
      returns (user: Option<UserId>, made: seq<Served>)
      requires pkce.store == store
      modifies store
      ensures Extends(old(store.db), store.db) && store.calls == old(store.calls) + made
      ensures LoginCalls(state, exchange, newUser, hash, made, user)
      ensures user.Some? ==> exchange.Some? && Linked(store.db, exchange.value, user.value)
      ensures user.Some? ==> !Used(old(store.db), state) && Used(store.db, state)
      ensures user.Some? ==> hash !in old(store.db).sessions && HasSession(store.db, hash, user.value)
      ensures Used(old(store.db), state) ==> user.None?
    {
      hide Extends, ServedAs, Linked, Used, HasTerms, HasSession, ResolveCalls;
      ghost var first := store.db;
      var reply := pkce.ConsumeOnce(state);
      made := [Served(Consume(state), reply)];
      if RowOf(reply).None? || !RowOf(reply).value.isLogin || exchange.None? {
        return None, made;
      }
      ghost var consumed := store.db;
      var calls;
      user, calls := ResolveOrCreateUser(exchange.value, newUser);
      ExtendsTransitive(first, consumed, store.db);
      made := made + calls;
      assert made[1..] == calls;
      if user.None? {
        return;
      }
      ghost var resolved := store.db;
      UsedStays(state, consumed, resolved);
      var minted, before, after := store.Call(InsertSession(hash, user.value));
      ExtendsTransitive(first, resolved, before);
      ExtendsTransitive(first, resolved, store.db);
      made := made + [Served(InsertSession(hash, user.value), minted)];
      assert made[1..|made| - 1] == calls && ResolveCalls(exchange.value, newUser, calls, user);
      assert made[|made| - 1].op == InsertSession(hash, user.value);
      if minted.Error? {
        return None, made;
      }
      SessionMeans(hash, user.value, minted, first, before, after, store.db);
      LinkedStays(exchange.value, user.value, resolved, store.db);
      UsedStays(state, resolved, store.db);
    }
  }

  // ---------------------------------------------------------------- linking

  /** Where a linked grant goes. */
  datatype LinkedGrant = LinkedGrant(pool: PoolKind, owner: Option<UserId>)

  class SubscriptionOAuthService {
    const store: SharedStore
    const pkce: SqlitePkceSessionRepository
    const verifyAttempts: nat

    constructor (store: SharedStore, pkce: SqlitePkceSessionRepository, verifyAttempts: nat)
      requires pkce.store == store
      ensures this.store == store && this.pkce == pkce && this.verifyAttempts == verifyAttempts
    {
      this.store := store;
      this.pkce := pkce;
      this.verifyAttempts := verifyAttempts;
    }

    /** A begun link is stored with exactly this pool and owner; one is begun unless a user pool has no
        owner, or the insert fails. */
    method BeginLink(state: string, pool: PoolKind, owner: Option<UserId>) returns (begun: bool)
      modifies pkce.store
      ensures Extends(old(pkce.store.db), pkce.store.db)
      ensures begun ==> state !in old(pkce.store.db).pkce
                        && HasTerms(pkce.store.db, state, PkceRow(false, Some(pool), owner, false))
      ensures pool == UserPool && owner.None? ==> !begun && pkce.store.calls == old(pkce.store.calls)
      ensures !(pool == UserPool && owner.None?) ==>
                && |pkce.store.calls| == |old(pkce.store.calls)| + 1
                && (begun <==> pkce.store.calls[|old(pkce.store.calls)|].reply.Value?)
    {
      if pool == UserPool && owner.None? {
        return false;
      }
      begun := pkce.Create(state, PkceRow(false, Some(pool), owner, false));
    }

    /** The bounded retry: the verdicts asked for, all but the last inconclusive, are at most
        `verifyAttempts`; an inconclusive result means that all of them were used; `None` is an
        error of the provider.  It is what the steps of a linking flow do with the same answers. */
    method VerifyGrant(row: PkceRow) returns (verdict: Option<Verdict>, answers: seq<Option<Verdict>>)
      ensures |answers| <= verifyAttempts
      ensures forall i :: 0 <= i < |answers| - 1 ==> answers[i] == Some(Inconclusive)
      ensures answers != [] ==> verdict == answers[|answers| - 1]
      ensures verdict == Some(Inconclusive) ==> |answers| == verifyAttempts
      ensures verdict == Some(Valid) <==> Judged(verifyAttempts, row, answers).Granted?
      ensures verdict != Some(Valid) <==> Judged(verifyAttempts, row, answers).Failed?
    {
      verdict := Some(Inconclusive);
      answers := [];
      ghost var verdicts: seq<Verdict> := [];
      for attempt := 0 to verifyAttempts
        invariant |answers| == attempt && verdict == Some(Inconclusive)
        invariant forall i :: 0 <= i < attempt ==> answers[i] == Some(Inconclusive)
        invariant |verdicts| == attempt
        invariant Judged(verifyAttempts, row, answers)
               == if attempt < verifyAttempts then Verifying(row, verdicts) else Failed
      {
        verdict := *; // the provider's answer
        answers := answers + [verdict];
        assert answers[..attempt] == answers[..|answers| - 1];
        if verdict != Some(Inconclusive) {
          return;
        }
        verdicts := verdicts + [Inconclusive];
      }
    }

    /** A link whose code is exchanged or not.  It is granted exactly when `consume` gave it the row of a
        link with a pool, the code was exchanged and the last verdict is valid; and the grant goes to
        the pool and owner that are stored for that state. */
    method CompleteLink(state: string, exchanged: bool)
      returns (grant: Option<LinkedGrant>, reply: Reply<Val>, answers: seq<Option<Verdict>>)
      modifies pkce.store
      ensures Extends(old(pkce.store.db), pkce.store.db)
      ensures pkce.store.calls == old(pkce.store.calls) + [Served(Consume(state), reply)]
      ensures var row := RowOf(reply);
              var fit := row.Some? && !row.value.isLogin && row.value.pool.Some? && exchanged;
              && (!fit ==> answers == [])
              && (fit && verifyAttempts > 0 ==> 1 <= |answers| <= verifyAttempts)
              && (forall i :: 0 <= i < |answers| - 1 ==> answers[i] == Some(Inconclusive))
              && (fit && answers != [] && answers[|answers| - 1] == Some(Inconclusive) ==> |answers| == verifyAttempts)
              && (grant.Some? <==> fit && answers != [] && answers[|answers| - 1] == Some(Valid))
              && (grant.Some? ==> grant.value == LinkedGrant(row.value.pool.value, row.value.owner))
      ensures grant.Some? ==> !Used(old(pkce.store.db), state) && Used(pkce.store.db, state)
      ensures grant.Some? ==> HasTerms(pkce.store.db, state, PkceRow(false, Some(grant.value.pool), grant.value.owner, true))
      ensures grant.Some? && state in old(pkce.store.db).pkce ==>
                HasTerms(old(pkce.store.db), state, PkceRow(false, Some(grant.value.pool), grant.value.owner, true))
      ensures Used(old(pkce.store.db), state) ==> grant.None?
    {
      grant, answers := None, [];
      reply := pkce.ConsumeOnce(state);
      if RowOf(reply).None? || RowOf(reply).value.isLogin {
        return;
      }
      var row := RowOf(reply).value;
      if row.pool.None? || !exchanged {
        return;
      }
      var verdict;
      verdict, answers := VerifyGrant(row);
      if verdict == Some(Valid) {
        grant := Some(LinkedGrant(row.pool.value, row.owner));
      }
    }
  }

  /** A linking flow after the code exchange, given the answers of its verification calls. */
  function Judged(maxVerify: nat, row: PkceRow, answers: seq<Option<Verdict>>): Pc {
    if answers == [] then (if maxVerify == 0 then Failed else Verifying(row, []))
    else
      match Judged(maxVerify, row, answers[..|answers| - 1])
      case Verifying(r, verdicts) => AuthFlows.Judge(maxVerify, r, verdicts, answers[|answers| - 1])
      case pc => pc
  }
}
