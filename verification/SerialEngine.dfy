/** The database engine that queues every operation on one promise chain, and the proof that any
    schedule of it gives what running the operations one at a time gives. */
module SerialEngine {
  import opened Domain

  /** What a statement or an operation yields: a value, or a thrown error. */
  datatype Reply<+V> = Value(value: V) | Error

  /** A statement; one that throws leaves the database alone. */
  type Stmt<!DB, !V> = DB -> (Reply<V>, DB)

  function Exec<DB, V>(st: Stmt<DB, V>, db: DB): (Reply<V>, DB) {
    var (r, after) := st(db);
    if r.Error? then (r, db) else (r, after)
  }

  /** What a transaction body does next: await one statement, return, or throw. */
  datatype Act<!DB, !V> = Do(stmt: Stmt<DB, V>) | Return(value: V) | Throw

  /** A body that awaits only its own transaction: its next act depends on the replies so far. */
  type Body<!DB, !V> = seq<Reply<V>> -> Act<DB, V>

  datatype Op<!DB, !V> = Single(stmt: Stmt<DB, V>) | Transaction(body: Body<DB, V>)

  /** What the driver may do to a transaction. */
  datatype Fault = NoFault | BeginFails | CommitFails

  datatype Phase<!V> =
    | Waiting
    | InTransaction(replies: seq<Reply<V>>)
    | Settled(outcome: Reply<V>, replies: seq<Reply<V>>, fault: Fault)

  /** An enqueued operation; it starts when the promise of slot `after` has settled. */
  datatype Slot<!DB, !V> = Slot(op: Op<DB, V>, after: Option<nat>, phase: Phase<V>)

  /** `db` is what the one connection sees, `saved` the image a ROLLBACK restores, `chain` the
      promise at the tail. */
  datatype State<!DB, !V> = State(db: DB, saved: Option<DB>, chain: Option<nat>, slots: seq<Slot<DB, V>>)

  datatype Event<!DB, !V> = Enqueue(op: Op<DB, V>) | Step(slot: nat, fault: Fault)

  // ---------------------------------------------------------------- the engine

  function Enqueued<DB, V>(s: State<DB, V>, op: Op<DB, V>): State<DB, V> {
    s.(slots := s.slots + [Slot(op, s.chain, Waiting)], chain := Some(|s.slots|))
  }

  /** The scheduler may step any slot that has started or whose predecessor has settled. */
  predicate Runnable<DB, V>(s: State<DB, V>, i: nat) {
    && i < |s.slots|
    && match s.slots[i].phase
       case Waiting => s.slots[i].after.Some? ==>
                         s.slots[i].after.value < |s.slots| && s.slots[s.slots[i].after.value].phase.Settled?
       case InTransaction(_) => s.saved.Some?
       case Settled(_, _, _) => false
  }

  function WithPhase<DB, V>(s: State<DB, V>, i: nat, p: Phase<V>): State<DB, V>
    requires i < |s.slots|
  {
    s.(slots := s.slots[i := s.slots[i].(phase := p)])
  }

  function Stepped<DB, V>(s: State<DB, V>, i: nat, fault: Fault): State<DB, V>
    requires Runnable(s, i)
  {
    match (s.slots[i].phase, s.slots[i].op)
    case (Waiting, Single(stmt)) =>
      var (r, db) := Exec(stmt, s.db);
      WithPhase(s, i, Settled(r, [], NoFault)).(db := db)
    case (Waiting, Transaction(_)) =>
      if fault == BeginFails || s.saved.Some? then WithPhase(s, i, Settled(Error, [], BeginFails))
      else WithPhase(s, i, InTransaction([])).(saved := Some(s.db))
    case (InTransaction(_), Single(_)) => s
    case (InTransaction(replies), Transaction(body)) =>
      (match body(replies)
       case Do(stmt) =>
         var (r, db) := Exec(stmt, s.db);
         WithPhase(s, i, InTransaction(replies + [r])).(db := db)
       case Return(v) =>
         if fault == CommitFails
         then WithPhase(s, i, Settled(Error, replies, CommitFails)).(db := s.saved.value, saved := None)
         else WithPhase(s, i, Settled(Value(v), replies, NoFault)).(saved := None)
       case Throw =>
         WithPhase(s, i, Settled(Error, replies, NoFault)).(db := s.saved.value, saved := None))
  }

  /** The engine object; `Resume` is one stretch of code between two awaits. */
  class SqliteEngine<!DB(!new), !V(!new)> {
    var db: DB
    var saved: Option<DB>
    var chain: Option<nat>
    var slots: seq<Slot<DB, V>>

    constructor (db: DB)
      ensures Abstract() == State(db, None, None, [])
    {
      this.db := db;
      saved := None;
      chain := None;
      slots := [];
    }

    function Abstract(): State<DB, V>
      reads this
    {
      State(db, saved, chain, slots)
    }

    method EnqueueOp(op: Op<DB, V>) returns (result: nat)
      modifies this
      ensures Abstract() == Enqueued(old(Abstract()), op)
      ensures result == |old(slots)|
    {
      result := |slots|;
      slots := slots + [Slot(op, chain, Waiting)];
      chain := Some(result);
    }

    method Settle(i: nat, outcome: Reply<V>, replies: seq<Reply<V>>, fault: Fault)
      requires i < |slots|
      modifies this`slots
      ensures slots == old(slots)[i := old(slots)[i].(phase := Settled(outcome, replies, fault))]
    {
      slots := slots[i := slots[i].(phase := Settled(outcome, replies, fault))];
    }

    method Resume(i: nat, fault: Fault)
      requires Runnable(Abstract(), i)
      modifies this
      ensures Abstract() == Stepped(old(Abstract()), i, fault)
    {
      var slot := slots[i];
      if slot.phase.Waiting? {
        match slot.op {
          case Single(stmt) =>
            var (r, after) := Exec(stmt, db);
            db := after;
            Settle(i, r, [], NoFault);
          case Transaction(_) =>
            if fault == BeginFails || saved.Some? {
              Settle(i, Error, [], BeginFails);
            } else {
              saved := Some(db);
              slots := slots[i := slot.(phase := InTransaction([]))];
            }
        }
      } else if slot.op.Transaction? {
        var replies := slot.phase.replies;
        match slot.op.body(replies) {
          case Do(stmt) =>
            var (r, after) := Exec(stmt, db);
            db := after;
            slots := slots[i := slot.(phase := InTransaction(replies + [r]))];
          case Return(v) =>
            if fault == CommitFails {
              db := saved.value;
              saved := None;
              Settle(i, Error, replies, CommitFails);
            } else {
              saved := None;
              Settle(i, Value(v), replies, NoFault);
            }
          case Throw =>
            db := saved.value;
            saved := None;
            Settle(i, Error, replies, NoFault);
        }
      }
    }
  }

  /** A step adds no slot, changes no operation, and leaves settled slots alone. */
  lemma StepLeavesRest<DB, V>(s: State<DB, V>, i: nat, fault: Fault)
    requires Runnable(s, i)
    ensures var s' := Stepped(s, i, fault);
            && |s'.slots| == |s.slots|
            && (forall j :: 0 <= j < |s.slots| ==> s'.slots[j].op == s.slots[j].op)
            && (forall j :: 0 <= j < |s.slots| && s.slots[j].phase.Settled? ==> s'.slots[j] == s.slots[j])
  {
    hide Exec;
  }

  // ---------------------------------------------------------------- one operation, alone

  /** The first n statements of a body on a database nobody else touches. */
  function Replay<DB, V>(body: Body<DB, V>, db: DB, n: nat): (seq<Reply<V>>, DB) {
    if n == 0 then ([], db) else
      var (replies, d) := Replay(body, db, n - 1);
      match body(replies)
      case Do(stmt) => var (r, d') := Exec(stmt, d); (replies + [r], d')
      case _ => (replies, d)
  }

  /** Whether n statements are all of them. */
  predicate Finishes<DB, V>(body: Body<DB, V>, db: DB, n: nat) {
    !body(Replay(body, db, n).0).Do?
  }

  /** An operation run alone on `db`: its outcome and the database it leaves. */
  function Alone<DB, V>(op: Op<DB, V>, db: DB, fault: Fault, n: nat): (Reply<V>, DB) {
    match op
    case Single(stmt) => Exec(stmt, db)
    case Transaction(body) =>
      if fault == BeginFails then (Error, db) else
        var (replies, d) := Replay(body, db, n);
        match body(replies)
        case Return(v) => if fault == CommitFails then (Error, db) else (Value(v), d)
        case _ => (Error, db)
  }

  lemma ReplayOneMore<DB, V>(body: Body<DB, V>, db: DB, n: nat, stmt: Stmt<DB, V>)
    requires body(Replay(body, db, n).0) == Do(stmt)
    ensures var (replies, d) := Replay(body, db, n);
            Replay(body, db, n + 1) == (replies + [Exec(stmt, d).0], Exec(stmt, d).1)
  {
  }

  /** How long a body runs is decided by the body and the database alone. */
  lemma {:induction false} ReplayStops<DB, V>(body: Body<DB, V>, db: DB, m: nat, n: nat)
    requires m <= n && Finishes(body, db, m)
    ensures Replay(body, db, n) == Replay(body, db, m)
  {
    if m < n {
      ReplayStops(body, db, m, n - 1);
    }
  }

  lemma AloneIsDetermined<DB, V>(op: Op<DB, V>, db: DB, fault: Fault, m: nat, n: nat)
    requires op.Transaction? ==> Finishes(op.body, db, m) && Finishes(op.body, db, n)
    ensures Alone(op, db, fault, m) == Alone(op, db, fault, n)
  {
    if op.Transaction? {
      if m <= n {
        ReplayStops(op.body, db, m, n);
      } else {
        ReplayStops(op.body, db, n, m);
      }
    }
  }

  /** An operation that throws is the identity on the database. */
  lemma ThrowingIsIdentity<DB, V>(op: Op<DB, V>, db: DB, fault: Fault, n: nat)
    requires Alone(op, db, fault, n).0.Error?
    ensures Alone(op, db, fault, n).1 == db
  {
  }

  // ---------------------------------------------------------------- one after the other

  function SettledAlone<DB, V>(slot: Slot<DB, V>, db: DB): (Reply<V>, DB)
    requires slot.phase.Settled?
  {
    Alone(slot.op, db, slot.phase.fault, |slot.phase.replies|)
  }

  /** The database after running the first k operations one at a time, in enqueue order. */
  function SerialDb<DB, V>(db0: DB, slots: seq<Slot<DB, V>>, k: nat): DB
    requires k <= |slots|
    requires forall i :: 0 <= i < k ==> slots[i].phase.Settled?
  {
    if k == 0 then db0 else SettledAlone(slots[k - 1], SerialDb(db0, slots, k - 1)).1
  }

  /** The i-th operation, run when its turn comes, ends as the engine said it ended. */
  ghost predicate ServedSerially<DB(!new), V>(db0: DB, slots: seq<Slot<DB, V>>, i: nat)
    requires i < |slots|
    requires forall j :: 0 <= j <= i ==> slots[j].phase.Settled?
  {
    var p := slots[i].phase;
    && p.outcome == SettledAlone(slots[i], SerialDb(db0, slots, i)).0
    && (slots[i].op.Transaction? && p.fault != BeginFails ==> Finishes(slots[i].op.body, SerialDb(db0, slots, i), |p.replies|))
  }

  /** The queue: each slot waits for the one before it, the first k are done, the rest have not
      started but for the k-th, which may be in its transaction. */
  predicate InOrder<DB, V>(s: State<DB, V>, k: nat) {
    && k <= |s.slots|
    && s.chain == (if s.slots == [] then None else Some(|s.slots| - 1))
    && (forall i :: 0 <= i < |s.slots| ==> s.slots[i].after == if i == 0 then None else Some((i - 1) as nat))
    && (forall i :: 0 <= i < k ==> s.slots[i].phase.Settled?)
    && (forall i :: k < i < |s.slots| ==> s.slots[i].phase.Waiting?)
    && (k < |s.slots| ==> !s.slots[k].phase.Settled?)
  }

  ghost predicate AllServed<DB(!new), V>(db0: DB, slots: seq<Slot<DB, V>>, k: nat) {
    && k <= |slots|
    && (forall i :: 0 <= i < k ==> slots[i].phase.Settled?)
    && (forall i :: 0 <= i < k ==> ServedSerially(db0, slots, i))
  }

  /** The connection sees what the first k operations left, plus what the transaction under way
      has done on top of it by itself. */
  ghost predicate ConnectionOk<DB(!new), V>(db0: DB, s: State<DB, V>, k: nat)
    requires InOrder(s, k)
  {
    if k < |s.slots| && s.slots[k].phase.InTransaction? then
      && s.slots[k].op.Transaction?
      && s.saved == Some(SerialDb(db0, s.slots, k))
      && Replay(s.slots[k].op.body, SerialDb(db0, s.slots, k), |s.slots[k].phase.replies|) == (s.slots[k].phase.replies, s.db)
    else
      s.saved == None && s.db == SerialDb(db0, s.slots, k)
  }

  ghost predicate Serial<DB(!new), V>(db0: DB, s: State<DB, V>, k: nat) {
    InOrder(s, k) && AllServed(db0, s.slots, k) && ConnectionOk(db0, s, k)
  }

  lemma {:induction false} SerialDbLocal<DB, V>(db0: DB, a: seq<Slot<DB, V>>, b: seq<Slot<DB, V>>, k: nat)
    requires k <= |a| && k <= |b| && a[..k] == b[..k]
    requires forall i :: 0 <= i < k ==> a[i].phase.Settled?
    ensures forall i :: 0 <= i < k ==> b[i].phase.Settled? && a[i] == b[i]
    ensures SerialDb(db0, a, k) == SerialDb(db0, b, k)
  {
    forall i | 0 <= i < k ensures a[i] == b[i] {
      assert a[i] == a[..k][i] && b[i] == b[..k][i];
    }
    if k > 0 {
      assert a[..k - 1] == a[..k][..k - 1] && b[..k - 1] == b[..k][..k - 1];
      SerialDbLocal(db0, a, b, k - 1);
    }
  }

  /** Whatever slot the scheduler picks among the runnable ones, it is the k-th. */
  lemma OnlyOneRunnable<DB(!new), V>(db0: DB, s: State<DB, V>, k: nat, i: nat)
    requires Serial(db0, s, k)
    ensures Runnable(s, i) <==> i == k && k < |s.slots|
  {
    hide AllServed, SerialDb, Replay;
  }

  lemma ServedOne<DB(!new), V>(db0: DB, a: seq<Slot<DB, V>>, b: seq<Slot<DB, V>>, i: nat)
    requires i < |a| && i < |b| && a[..i + 1] == b[..i + 1]
    requires forall j :: 0 <= j <= i ==> a[j].phase.Settled?
    requires ServedSerially(db0, a, i)
    ensures forall j :: 0 <= j <= i ==> b[j].phase.Settled?
    ensures ServedSerially(db0, b, i)
  {
    SerialDbLocal(db0, a, b, i + 1);
    assert a[..i] == a[..i + 1][..i] && b[..i] == b[..i + 1][..i];
    SerialDbLocal(db0, a, b, i);
  }

  lemma ServedLocal<DB(!new), V>(db0: DB, a: seq<Slot<DB, V>>, b: seq<Slot<DB, V>>, k: nat)
    requires AllServed(db0, a, k) && k <= |b| && a[..k] == b[..k]
    ensures AllServed(db0, b, k) && SerialDb(db0, a, k) == SerialDb(db0, b, k)
  {
    SerialDbLocal(db0, a, b, k);
    forall i | 0 <= i < k ensures ServedSerially(db0, b, i) {
      hide ServedSerially, SerialDb;
      assert a[..i + 1] == a[..k][..i + 1] && b[..i + 1] == b[..k][..i + 1];
      ServedOne(db0, a, b, i);
    }
  }

  lemma EnqueueKeepsSerial<DB(!new), V>(db0: DB, s: State<DB, V>, k: nat, op: Op<DB, V>)
    requires Serial(db0, s, k)
    ensures Serial(db0, Enqueued(s, op), k)
  {
    var s' := Enqueued(s, op);
    assert s.slots[..k] == s'.slots[..k];
    ServedLocal(db0, s.slots, s'.slots, k);
    hide AllServed, SerialDb, Replay;
  }

  /** The k-th slot takes a step without settling. */
  lemma GoOn<DB(!new), V>(db0: DB, s: State<DB, V>, k: nat, fault: Fault)
    requires Serial(db0, s, k) && k < |s.slots| && Runnable(s, k)
    requires !Stepped(s, k, fault).slots[k].phase.Settled?
    ensures Serial(db0, Stepped(s, k, fault), k)
  {
    var s' := Stepped(s, k, fault);
    assert s.slots[..k] == s'.slots[..k];
    ServedLocal(db0, s.slots, s'.slots, k);
    hide AllServed, SerialDb;
  }

  /** The k-th slot settles: what the engine reports is what running it alone yields. */
  lemma SettlesAsAlone<DB(!new), V>(db0: DB, s: State<DB, V>, k: nat, fault: Fault)
    requires Serial(db0, s, k) && k < |s.slots| && Runnable(s, k)
    requires Stepped(s, k, fault).slots[k].phase.Settled?
    ensures var s' := Stepped(s, k, fault);
            var p := s'.slots[k].phase;
            var db := SerialDb(db0, s.slots, k);
            && (p.outcome, s'.db) == Alone(s.slots[k].op, db, p.fault, |p.replies|)
            && s'.saved == None
            && (s.slots[k].op.Transaction? && p.fault != BeginFails ==> Finishes(s.slots[k].op.body, db, |p.replies|))
  {
    hide AllServed, SerialDb;
  }

  lemma Settle<DB(!new), V>(db0: DB, s: State<DB, V>, k: nat, fault: Fault)
    requires Serial(db0, s, k) && k < |s.slots| && Runnable(s, k)
    requires Stepped(s, k, fault).slots[k].phase.Settled?
    ensures Serial(db0, Stepped(s, k, fault), k + 1)
  {
    var s' := Stepped(s, k, fault);
    SettlesAsAlone(db0, s, k, fault);
    assert InOrder(s', k + 1) && s'.slots[k].op == s.slots[k].op by {
      hide AllServed, SerialDb, Alone, Finishes, ConnectionOk;
    }
    assert s.slots[..k] == s'.slots[..k];
    ServedLocal(db0, s.slots, s'.slots, k);
    hide Stepped, Alone, Finishes, InOrder;
    assert ServedSerially(db0, s'.slots, k);
  }

  lemma StepKeepsSerial<DB(!new), V>(db0: DB, s: State<DB, V>, k: nat, i: nat, fault: Fault) returns (k': nat)
    requires Serial(db0, s, k) && Runnable(s, i)
    ensures Serial(db0, Stepped(s, i, fault), k')
    ensures i == k
  {
    OnlyOneRunnable(db0, s, k, i);
    if Stepped(s, k, fault).slots[k].phase.Settled? {
      Settle(db0, s, k, fault);
      k' := k + 1;
    } else {
      GoOn(db0, s, k, fault);
      k' := k;
    }
  }

  // ---------------------------------------------------------------- every schedule

  ghost predicate Follows<DB(!new), V>(s: State<DB, V>, e: Event<DB, V>, s': State<DB, V>) {
    match e
    case Enqueue(op) => s' == Enqueued(s, op)
    case Step(i, fault) => Runnable(s, i) && s' == Stepped(s, i, fault)
  }

  /** Any interleaving of enqueue calls and steps, from a fresh engine on `db0`. */
  ghost predicate IsRun<DB(!new), V>(db0: DB, states: seq<State<DB, V>>, events: seq<Event<DB, V>>) {
    && |states| == |events| + 1
    && states[0] == State(db0, None, None, [])
    && forall i :: 0 <= i < |events| ==> Follows(states[i], events[i], states[i + 1])
  }

  lemma {:induction false} EveryStateSerial<DB(!new), V>(db0: DB, states: seq<State<DB, V>>, events: seq<Event<DB, V>>, n: nat)
    returns (k: nat)
    requires IsRun(db0, states, events) && n < |states|
    ensures Serial(db0, states[n], k)
  {
    if n == 0 {
      k := 0;
    } else {
      k := EveryStateSerial(db0, states, events, n - 1);
      assert Follows(states[n - 1], events[n - 1], states[n - 1 + 1]);
      hide Serial, Runnable, Stepped, Enqueued;
      match events[n - 1] {
        case Enqueue(op) => EnqueueKeepsSerial(db0, states[n - 1], k, op);
        case Step(i, fault) => k := StepKeepsSerial(db0, states[n - 1], k, i, fault);
      }
    }
  }

  /** Serialisability: in every state of every schedule, if an operation has settled then so have
      all the earlier ones, its outcome is what running the operations one at a time in enqueue
      order yields, and when all have settled the database is the one that leaves. */
  lemma Serialisable<DB(!new), V>(db0: DB, states: seq<State<DB, V>>, events: seq<Event<DB, V>>, n: nat, i: nat)
    requires IsRun(db0, states, events) && n < |states|
    requires i < |states[n].slots| && states[n].slots[i].phase.Settled?
    ensures forall j :: 0 <= j <= i ==> states[n].slots[j].phase.Settled?
    ensures ServedSerially(db0, states[n].slots, i)
    ensures i == |states[n].slots| - 1 ==>
              states[n].db == SerialDb(db0, states[n].slots, |states[n].slots|) && states[n].saved == None
  {
    var k := EveryStateSerial(db0, states, events, n);
    hide ServedSerially, SerialDb;
  }

  /** Isolation: while a transaction is under way, every earlier operation has settled, no later one
      has started, and what the connection sees is the serial database with the transaction's own
      statements, and no others, on top. */
  lemma TransactionIsAlone<DB(!new), V>(db0: DB, states: seq<State<DB, V>>, events: seq<Event<DB, V>>, n: nat, i: nat)
    requires IsRun(db0, states, events) && n < |states|
    requires i < |states[n].slots| && states[n].slots[i].phase.InTransaction?
    ensures forall j :: 0 <= j < i ==> states[n].slots[j].phase.Settled?
    ensures forall j :: i < j < |states[n].slots| ==> states[n].slots[j].phase.Waiting?
    ensures var s := states[n];
            && s.slots[i].op.Transaction?
            && Replay(s.slots[i].op.body, SerialDb(db0, s.slots, i), |s.slots[i].phase.replies|)
               == (s.slots[i].phase.replies, s.db)
  {
    var k := EveryStateSerial(db0, states, events, n);
    hide ServedSerially, SerialDb, Replay;
  }

  /** A rejected operation does not stop later ones: however the earlier ones ended, the first that
      has not settled can be stepped, and nothing else can. */
  lemma QueueNeverStops<DB(!new), V>(db0: DB, states: seq<State<DB, V>>, events: seq<Event<DB, V>>, n: nat, i: nat)
    requires IsRun(db0, states, events) && n < |states|
    requires i < |states[n].slots| && !states[n].slots[i].phase.Settled?
    requires forall j :: 0 <= j < i ==> states[n].slots[j].phase.Settled?
    ensures forall j: nat :: Runnable(states[n], j) <==> j == i
  {
    var k := EveryStateSerial(db0, states, events, n);
    forall j: nat ensures Runnable(states[n], j) <==> j == i {
      OnlyOneRunnable(db0, states[n], k, j);
    }
  }

  // ---------------------------------------------------------------- faults and outcomes

  /** A slot that settles in this step records a fault only if the step had it. */
  lemma SettledFault<DB(!new), V>(db0: DB, s: State<DB, V>, k: nat, i: nat, fault: Fault)
    requires Serial(db0, s, k) && Runnable(s, i) && Stepped(s, i, fault).slots[i].phase.Settled?
    ensures var f := Stepped(s, i, fault).slots[i].phase.fault;
            f != NoFault ==> f == fault && s.slots[i].op.Transaction?
  {
    OnlyOneRunnable(db0, s, k, i);
    assert s.slots[i].phase.Waiting? ==> s.saved.None?;
    hide Serial, Exec;
  }

  lemma OtherSlotsStay<DB(!new), V>(s: State<DB, V>, e: Event<DB, V>, s': State<DB, V>, i: nat)
    requires Follows(s, e, s') && i < |s'.slots| && s'.slots[i].phase.Settled?
    requires e.Step? ==> e.slot != i
    ensures i < |s.slots| && s.slots[i] == s'.slots[i]
  {
    hide Exec;
  }

  /** Faults are real: in every run, a settled operation records a fault only if it is a transaction
      and some earlier step of it had that very fault. */
  lemma {:induction false} FaultsHappened<DB(!new), V>(db0: DB, states: seq<State<DB, V>>, events: seq<Event<DB, V>>, n: nat, i: nat)
    requires IsRun(db0, states, events) && n < |states|
    requires i < |states[n].slots| && states[n].slots[i].phase.Settled?
    ensures var f := states[n].slots[i].phase.fault;
            f != NoFault ==> states[n].slots[i].op.Transaction? && exists e :: 0 <= e < n && events[e] == Step(i, f)
  {
    if n > 0 {
      assert Follows(states[n - 1], events[n - 1], states[n - 1 + 1]);
      var e := events[n - 1];
      if e.Step? && e.slot == i {
        var k := EveryStateSerial(db0, states, events, n - 1);
        hide Serial, Exec, IsRun;
        SettledFault(db0, states[n - 1], k, i, e.fault);
        StepLeavesRest(states[n - 1], i, e.fault);
      } else {
        OtherSlotsStay(states[n - 1], e, states[n], i);
        FaultsHappened(db0, states, events, n - 1, i);
      }
    }
  }

  /** What it means that an operation on `db` ended with this outcome and left `after`. */
  ghost predicate EndedAs<DB(!new), V>(op: Op<DB, V>, db: DB, outcome: Reply<V>, after: DB) {
    match op
    case Single(stmt) =>
      if stmt(db).0.Error? then outcome == Error && after == db else (outcome, after) == stmt(db)
    case Transaction(body) => exists n: nat :: BodyEnded(body, db, n, outcome, after)
  }

  /** The body ran its n statements one after the other on `db`.  Then it returned and what it did was
      committed, or it threw and nothing of it is left. */
  ghost predicate BodyEnded<DB(!new), V>(body: Body<DB, V>, db: DB, n: nat, outcome: Reply<V>, after: DB) {
    var (replies, d) := Replay(body, db, n);
    || (body(replies).Return? && outcome == Value(body(replies).value) && after == d)
    || (body(replies).Throw? && outcome == Error && after == db)
  }

  /** Without a fault of the driver an operation does what it says, to the last word: in every run, if
      no step of operation i so far had a fault and it has settled, a statement gave what it gives
      alone; a transaction whose body returned is committed with the value it returned; one whose body
      threw left nothing. */
  lemma FaultlessIsServed<DB(!new), V>(db0: DB, states: seq<State<DB, V>>, events: seq<Event<DB, V>>, n: nat, i: nat)
    requires IsRun(db0, states, events) && n < |states|
    requires i < |states[n].slots| && states[n].slots[i].phase.Settled?
    requires forall e :: 0 <= e < n && events[e].Step? && events[e].slot == i ==> events[e].fault == NoFault
    ensures forall j :: 0 <= j <= i ==> states[n].slots[j].phase.Settled?
    ensures EndedAs(states[n].slots[i].op, SerialDb(db0, states[n].slots, i), states[n].slots[i].phase.outcome,
                    SerialDb(db0, states[n].slots, i + 1))
  {
    Serialisable(db0, states, events, n, i);
    FaultsHappened(db0, states, events, n, i);
    hide IsRun;
    var slots := states[n].slots;
    assert slots[i].phase.fault == NoFault;
    NoFaultMeaning(slots[i], SerialDb(db0, slots, i));
  }

  lemma NoFaultMeaning<DB(!new), V>(slot: Slot<DB, V>, db: DB)
    requires slot.phase.Settled? && slot.phase.fault == NoFault
    requires slot.phase.outcome == SettledAlone(slot, db).0
    requires slot.op.Transaction? ==> Finishes(slot.op.body, db, |slot.phase.replies|)
    ensures EndedAs(slot.op, db, slot.phase.outcome, SettledAlone(slot, db).1)
  {
    if slot.op.Transaction? {
      var n := |slot.phase.replies|;
      assert BodyEnded(slot.op.body, db, n, slot.phase.outcome, SettledAlone(slot, db).1);
    }
  }

  /** And with one: a transaction whose BEGIN or COMMIT failed is rejected and leaves nothing. */
  lemma FaultyLeavesNothing<DB(!new), V>(db0: DB, states: seq<State<DB, V>>, events: seq<Event<DB, V>>, n: nat, i: nat)
    requires IsRun(db0, states, events) && n < |states|
    requires i < |states[n].slots| && states[n].slots[i].phase.Settled? && states[n].slots[i].phase.fault != NoFault
    ensures forall j :: 0 <= j <= i ==> states[n].slots[j].phase.Settled?
    ensures states[n].slots[i].phase.outcome == Error
    ensures SerialDb(db0, states[n].slots, i + 1) == SerialDb(db0, states[n].slots, i)
  {
    Serialisable(db0, states, events, n, i);
    FaultsHappened(db0, states, events, n, i);
    hide IsRun, Replay;
  }

  /** The faults do what they stand for: a failing BEGIN or COMMIT rejects the transaction, and the
      connection is back at what it was before. */
  lemma FaultTakesEffect<DB(!new), V>(s: State<DB, V>, i: nat)
    requires Runnable(s, i) && s.slots[i].op.Transaction?
    ensures s.slots[i].phase.Waiting? ==>
              var s' := Stepped(s, i, BeginFails);
              s'.slots[i].phase.Settled? && s'.slots[i].phase.outcome == Error && s'.db == s.db && s'.saved == s.saved
    ensures s.slots[i].phase.InTransaction? && s.slots[i].op.body(s.slots[i].phase.replies).Return? ==>
              var s' := Stepped(s, i, CommitFails);
              s'.slots[i].phase.Settled? && s'.slots[i].phase.outcome == Error && s'.db == s.saved.value && s'.saved.None?
  {
    hide Exec;
  }
}
