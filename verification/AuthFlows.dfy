/** Any number of logins and subscription links at once, over the serial engine. */
module AuthFlows {
  import opened Domain
  import opened SerialEngine
  import opened AuthStore

  datatype Verdict = Valid | Invalid | Inconclusive

  /** Where one `completeLogin` or `completeLink` call is.  A slot is the database operation it
      awaits; `proof` is the operation that established the user. */
  datatype Pc =
    | Consuming
    | Exchanging(row: PkceRow)
    | Finding(key: Key, slot: nat)
    | Creating(key: Key, user: UserId, slot: nat)
    | Linking(key: Key, user: UserId, slot: nat)
    | Minting(key: Key, user: UserId, proof: nat, slot: nat)
    | Minted(key: Key, user: UserId, proof: nat, slot: nat)
    | Verifying(row: PkceRow, verdicts: seq<Verdict>)
    | Granted(row: PkceRow, verdicts: seq<Verdict>)
    | Failed

  datatype Flow = Flow(isLogin: bool, state: string, consumeSlot: nat, pc: Pc)

  /** What the outside world decides for a flow that is resumed: the result of the code exchange,
      the verdict of one verification call (`None` when the call throws), and fresh values. */
  datatype Input = Input(identity: Option<Key>, verdict: Option<Verdict>, newUser: UserId, hash: string)

  datatype System = System(engine: State<Store, Val>, ops: seq<RepoOp>, flows: seq<Flow>)

  datatype Action =
    | EngineStep(slot: nat, fault: Fault)
    | Begin(state: string, row: PkceRow)
    | Complete(isLogin: bool, state: string)
    | Resume(flow: nat, input: Input)

  // ---------------------------------------------------------------- steps

  /** The operation a flow is waiting for, if it waits for one. */
  function Awaited(f: Flow): Option<nat> {
    match f.pc
    case Consuming => Some(f.consumeSlot)
    case Finding(_, slot) => Some(slot)
    case Creating(_, _, slot) => Some(slot)
    case Linking(_, _, slot) => Some(slot)
    case Minting(_, _, _, slot) => Some(slot)
    case _ => None
  }

  /** One verification attempt of a grant. */
  function Judge(maxVerify: nat, row: PkceRow, verdicts: seq<Verdict>, verdict: Option<Verdict>): Pc {
    match verdict
    case None => Failed
    case Some(Valid) => Granted(row, verdicts + [Valid])
    case Some(Invalid) => Failed
    case Some(Inconclusive) =>
      if |verdicts| + 1 < maxVerify then Verifying(row, verdicts + [Inconclusive]) else Failed
  }

  /** From one await to the next: the new place, and the operation enqueued on the way. */
  function Advance(maxVerify: nat, f: Flow, reply: Reply<Val>, next: nat, input: Input): (Pc, Option<RepoOp>) {
    match f.pc
    case Consuming =>
      if reply.Value? && reply.value.Row? && reply.value.row.Some?
         && reply.value.row.value.isLogin == f.isLogin
         && (!f.isLogin ==> reply.value.row.value.pool.Some?)
      then (Exchanging(reply.value.row.value), None)
      else (Failed, None)
    case Exchanging(row) =>
      if input.identity.None? then (Failed, None)
      else if f.isLogin then (Finding(input.identity.value, next), Some(FindIdentity(input.identity.value)))
      else if maxVerify == 0 then (Failed, None)
      else (Verifying(row, []), None)
    case Finding(key, slot) =>
      if !(reply.Value? && reply.value.Found?) then (Failed, None)
      else if reply.value.user.Some? then
        (Minting(key, reply.value.user.value, slot, next), Some(InsertSession(input.hash, reply.value.user.value)))
      else (Creating(key, input.newUser, next), Some(InsertUser(input.newUser)))
    case Creating(key, user, _) =>
      if reply.Error? then (Failed, None) else (Linking(key, user, next), Some(LinkIdentity(key, user)))
    case Linking(key, user, slot) =>
      if reply.Error? then (Failed, None) else (Minting(key, user, slot, next), Some(InsertSession(input.hash, user)))
    case Minting(key, user, proof, slot) =>
      if reply.Error? then (Failed, None) else (Minted(key, user, proof, slot), None)
    case Verifying(row, verdicts) => (Judge(maxVerify, row, verdicts, input.verdict), None)
    case _ => (f.pc, None)
  }

  function EnqueueRepo(s: System, op: Option<RepoOp>): System {
    if op.None? then s
    else s.(engine := Enqueued(s.engine, Compile(op.value)), ops := s.ops + [op.value])
  }

  predicate Enabled(s: System, a: Action) {
    match a
    case EngineStep(i, _) => Runnable(s.engine, i)
    case Begin(_, _) => true
    case Complete(_, _) => true
    case Resume(f, _) =>
      f < |s.flows| &&
      var slot := Awaited(s.flows[f]);
      slot.Some? ==> slot.value < |s.engine.slots| && s.engine.slots[slot.value].phase.Settled?
  }

  function ReplyOf(s: System, f: Flow): Reply<Val> {
    var slot := Awaited(f);
    if slot.Some? && slot.value < |s.engine.slots| && s.engine.slots[slot.value].phase.Settled?
    then s.engine.slots[slot.value].phase.outcome else Error
  }

  function Next(maxVerify: nat, s: System, a: Action): System
    requires Enabled(s, a)
  {
    match a
    case EngineStep(i, fault) => s.(engine := Stepped(s.engine, i, fault))
    case Begin(state, row) => EnqueueRepo(s, Some(CreatePkce(state, row)))
    case Complete(isLogin, state) =>
      EnqueueRepo(s, Some(Consume(state))).(flows := s.flows + [Flow(isLogin, state, |s.ops|, Consuming)])
    case Resume(i, input) =>
      var f := s.flows[i];
      var (pc, op) := Advance(maxVerify, f, ReplyOf(s, f), |s.ops|, input);
      EnqueueRepo(s, op).(flows := s.flows[i := f.(pc := pc)])
  }

  const INITIAL := System(State(EMPTY, None, None, []), [], [])

  ghost predicate StepsTo(maxVerify: nat, s: System, a: Action, s': System) {
    Enabled(s, a) && s' == Next(maxVerify, s, a)
  }

  ghost predicate IsRun(maxVerify: nat, states: seq<System>, actions: seq<Action>) {
    && |states| == |actions| + 1
    && states[0] == INITIAL
    && forall i :: 0 <= i < |actions| ==> StepsTo(maxVerify, states[i], actions[i], states[i + 1])
  }

  // ---------------------------------------------------------------- the invariant

  type Slots = seq<Slot<Store, Val>>

  /** Operation `i` has settled with a value. */
  predicate Yielded(slots: Slots, i: nat, v: Val) {
    i < |slots| && slots[i].phase.Settled? && slots[i].phase.outcome == Value(v)
  }

  predicate Done(slots: Slots, i: nat) {
    i < |slots| && slots[i].phase.Settled? && slots[i].phase.outcome.Value?
  }

  predicate IsOp(ops: seq<RepoOp>, i: nat, op: RepoOp) {
    i < |ops| && ops[i] == op
  }

  /** Operation `proof` found or made the link from `key` to `user`. */
  predicate Established(ops: seq<RepoOp>, slots: Slots, key: Key, user: UserId, proof: nat) {
    || (IsOp(ops, proof, FindIdentity(key)) && Yielded(slots, proof, Found(Some(user))))
    || (IsOp(ops, proof, LinkIdentity(key, user)) && Done(slots, proof))
  }

  /** The call consumed its state: `consume` gave it the row. */
  predicate Redeemed(slots: Slots, f: Flow) {
    && f.consumeSlot < |slots| && slots[f.consumeSlot].phase.Settled?
    && var o := slots[f.consumeSlot].phase.outcome;
       o.Value? && o.value.Row? && o.value.row.Some? && o.value.row.value.isLogin == f.isLogin
  }

  /** The row the call works with is the one `consume` gave it, and is fit for the call. */
  predicate GaveRow(slots: Slots, f: Flow, row: PkceRow) {
    && Yielded(slots, f.consumeSlot, Row(Some(row)))
    && row.isLogin == f.isLogin && (!f.isLogin ==> row.pool.Some?)
  }

  predicate AllInconclusive(verdicts: seq<Verdict>) {
    forall i :: 0 <= i < |verdicts| ==> verdicts[i] == Inconclusive
  }

  ghost predicate FlowOk(maxVerify: nat, ops: seq<RepoOp>, slots: Slots, f: Flow) {
    && IsOp(ops, f.consumeSlot, Consume(f.state))
    && (!f.pc.Consuming? && !f.pc.Failed? ==> Redeemed(slots, f))
    && match f.pc
       case Exchanging(row) => GaveRow(slots, f, row)
       case Finding(key, slot) => f.isLogin && IsOp(ops, slot, FindIdentity(key))
       case Creating(_, user, slot) => f.isLogin && IsOp(ops, slot, InsertUser(user))
       case Linking(key, user, slot) => f.isLogin && IsOp(ops, slot, LinkIdentity(key, user))
       case Minting(key, user, proof, slot) =>
         f.isLogin && Established(ops, slots, key, user, proof)
         && slot < |ops| && ops[slot].InsertSession? && ops[slot].user == user
       case Minted(key, user, proof, slot) =>
         f.isLogin && Established(ops, slots, key, user, proof)
         && slot < |ops| && ops[slot].InsertSession? && ops[slot].user == user
         && Done(slots, slot)
       case Verifying(row, verdicts) =>
         !f.isLogin && GaveRow(slots, f, row) && AllInconclusive(verdicts) && |verdicts| < maxVerify
       case Granted(row, verdicts) =>
         !f.isLogin && GaveRow(slots, f, row) && 1 <= |verdicts| <= maxVerify
         && verdicts[|verdicts| - 1] == Valid && AllInconclusive(verdicts[..|verdicts| - 1])
       case _ => true
  }

  ghost predicate Compiled(s: System) {
    && |s.ops| == |s.engine.slots|
    && forall i :: 0 <= i < |s.ops| ==> s.engine.slots[i].op == Compile(s.ops[i])
  }

  ghost predicate FlowsOk(maxVerify: nat, ops: seq<RepoOp>, slots: Slots, flows: seq<Flow>) {
    && (forall f :: 0 <= f < |flows| ==> FlowOk(maxVerify, ops, slots, flows[f]))
    && (forall f :: 0 <= f < |flows| ==> flows[f].consumeSlot < |ops|)
    && (forall f, g :: 0 <= f < g < |flows| ==> flows[f].consumeSlot != flows[g].consumeSlot)
  }

  ghost predicate EngineOk(e: State<Store, Val>) {
    exists k: nat :: Serial(EMPTY, e, k)
  }

  ghost predicate Inv(maxVerify: nat, s: System) {
    EngineOk(s.engine) && Compiled(s) && FlowsOk(maxVerify, s.ops, s.engine.slots, s.flows)
  }

  // ---------------------------------------------------------------- every action keeps it

  /** Operations are only added, and a settled one keeps its outcome. */
  ghost predicate Grown(ops: seq<RepoOp>, slots: Slots, ops': seq<RepoOp>, slots': Slots) {
    && ops <= ops' && |slots| <= |slots'|
    && forall i :: 0 <= i < |slots| && slots[i].phase.Settled? ==> slots'[i].phase == slots[i].phase
  }

  lemma FlowStays(maxVerify: nat, ops: seq<RepoOp>, slots: Slots, ops': seq<RepoOp>, slots': Slots, f: Flow)
    requires FlowOk(maxVerify, ops, slots, f) && Grown(ops, slots, ops', slots')
    ensures FlowOk(maxVerify, ops', slots', f)
  {
  }

  lemma FlowsStay(maxVerify: nat, ops: seq<RepoOp>, slots: Slots, ops': seq<RepoOp>, slots': Slots, flows: seq<Flow>)
    requires FlowsOk(maxVerify, ops, slots, flows) && Grown(ops, slots, ops', slots')
    ensures FlowsOk(maxVerify, ops', slots', flows)
  {
    forall f | 0 <= f < |flows| ensures FlowOk(maxVerify, ops', slots', flows[f]) {
      FlowStays(maxVerify, ops, slots, ops', slots', flows[f]);
    }
  }

  lemma EnqueueGrows(s: System, op: Option<RepoOp>)
    requires EngineOk(s.engine) && Compiled(s)
    ensures var s' := EnqueueRepo(s, op);
            && EngineOk(s'.engine) && Compiled(s')
            && Grown(s.ops, s.engine.slots, s'.ops, s'.engine.slots)
            && (op.Some? ==> IsOp(s'.ops, |s.ops|, op.value))
  {
    if op.Some? {
      var k: nat :| Serial(EMPTY, s.engine, k);
      EnqueueKeepsSerial(EMPTY, s.engine, k, Compile(op.value));
      hide Serial, Compile;
    }
  }

  lemma EngineStepKeeps(s: System, i: nat, fault: Fault)
    requires EngineOk(s.engine) && Compiled(s) && Runnable(s.engine, i)
    ensures var e := Stepped(s.engine, i, fault);
            EngineOk(e) && Compiled(s.(engine := e)) && Grown(s.ops, s.engine.slots, s.ops, e.slots)
  {
    var k: nat :| Serial(EMPTY, s.engine, k);
    hide Serial, Compile, Stepped;
    var k' := StepKeepsSerial(EMPTY, s.engine, k, i, fault);
    StepLeavesRest(s.engine, i, fault);
  }

  predicate Answers(slots: Slots, f: Flow, reply: Reply<Val>) {
    Awaited(f).Some? ==>
      var slot := Awaited(f).value;
      slot < |slots| && slots[slot].phase.Settled? && slots[slot].phase.outcome == reply
  }

  /** The resumed flow is still in order, once the operation it enqueues is. */
  lemma AdvanceOk(maxVerify: nat, ops: seq<RepoOp>, slots: Slots, f: Flow, reply: Reply<Val>, next: nat, input: Input)
    requires FlowOk(maxVerify, ops, slots, f) && Answers(slots, f, reply)
    requires var op := Advance(maxVerify, f, reply, next, input).1;
             op.Some? ==> IsOp(ops, next, op.value)
    ensures FlowOk(maxVerify, ops, slots, f.(pc := Advance(maxVerify, f, reply, next, input).0))
  {
    if f.pc.Verifying? && input.verdict.Some? {
      assert (f.pc.verdicts + [input.verdict.value])[..|f.pc.verdicts|] == f.pc.verdicts;
    }
  }

  lemma NewFlowOk(maxVerify: nat, ops: seq<RepoOp>, slots: Slots, f: Flow)
    requires f.pc.Consuming? && IsOp(ops, f.consumeSlot, Consume(f.state))
    ensures FlowOk(maxVerify, ops, slots, f)
  {
  }

  lemma CompleteKeeps(maxVerify: nat, s: System, isLogin: bool, state: string)
    requires Inv(maxVerify, s)
    ensures Inv(maxVerify, Next(maxVerify, s, Complete(isLogin, state)))
  {
    var s' := Next(maxVerify, s, Complete(isLogin, state));
    EnqueueGrows(s, Some(Consume(state)));
    FlowsStay(maxVerify, s.ops, s.engine.slots, s'.ops, s'.engine.slots, s.flows);
    NewFlowOk(maxVerify, s'.ops, s'.engine.slots, s'.flows[|s.flows|]);
    hide FlowOk, EngineOk, Compile;
  }

  lemma ResumeKeeps(maxVerify: nat, s: System, i: nat, input: Input)
    requires Inv(maxVerify, s) && Enabled(s, Resume(i, input))
    ensures Inv(maxVerify, Next(maxVerify, s, Resume(i, input)))
  {
    var s' := Next(maxVerify, s, Resume(i, input));
    var f := s.flows[i];
    var reply := ReplyOf(s, f);
    assert Answers(s.engine.slots, f, reply);
    var op := Advance(maxVerify, f, reply, |s.ops|, input).1;
    EnqueueGrows(s, op);
    FlowsStay(maxVerify, s.ops, s.engine.slots, s'.ops, s'.engine.slots, s.flows);
    hide FlowOk, EngineOk, Compile, Compiled, Advance, EnqueueRepo, ReplyOf;
    AdvanceOk(maxVerify, s'.ops, s'.engine.slots, f, reply, |s.ops|, input);
    var f' := s'.flows[i];
    assert FlowOk(maxVerify, s'.ops, s'.engine.slots, f');
  }

  lemma NextKeeps(maxVerify: nat, s: System, a: Action)
    requires Inv(maxVerify, s) && Enabled(s, a)
    ensures Inv(maxVerify, Next(maxVerify, s, a))
  {
    match a {
      case EngineStep(i, fault) =>
        EngineStepKeeps(s, i, fault);
        FlowsStay(maxVerify, s.ops, s.engine.slots, s.ops, Stepped(s.engine, i, fault).slots, s.flows);
      case Begin(state, row) =>
        EnqueueGrows(s, Some(CreatePkce(state, row)));
        var s' := Next(maxVerify, s, a);
        FlowsStay(maxVerify, s.ops, s.engine.slots, s'.ops, s'.engine.slots, s.flows);
      case Complete(isLogin, state) => CompleteKeeps(maxVerify, s, isLogin, state);
      case Resume(i, input) => ResumeKeeps(maxVerify, s, i, input);
    }
  }

  lemma InitialOk(maxVerify: nat)
    ensures Inv(maxVerify, INITIAL)
  {
    assert Serial(EMPTY, INITIAL.engine, 0);
  }

  lemma {:induction false} EveryStateOk(maxVerify: nat, states: seq<System>, actions: seq<Action>, n: nat)
    requires IsRun(maxVerify, states, actions) && n < |states|
    ensures Inv(maxVerify, states[n])
  {
    if n == 0 {
      InitialOk(maxVerify);
    } else {
      EveryStateOk(maxVerify, states, actions, n - 1);
      assert StepsTo(maxVerify, states[n - 1], actions[n - 1], states[n - 1 + 1]);
      NextKeeps(maxVerify, states[n - 1], actions[n - 1]);
    }
  }

  // ---------------------------------------------------------------- reading the serial history

  /** The stores between the operations that have settled, each of which failed or was the atomic
      step it stands for. */
  ghost predicate IsHistory(ops: seq<RepoOp>, outcomes: seq<Reply<Val>>, dbs: seq<Store>) {
    && |outcomes| <= |ops| && |dbs| == |outcomes| + 1 && dbs[0] == EMPTY
    && forall i :: 0 <= i < |outcomes| ==> ServedAs(ops[i], outcomes[i], dbs[i], dbs[i + 1])
  }

  /** The outcomes reported so far are those of the slots that have settled. */
  ghost predicate Reports(slots: Slots, outcomes: seq<Reply<Val>>) {
    && |outcomes| <= |slots|
    && forall i :: 0 <= i < |slots| ==>
         (slots[i].phase.Settled? <==> i < |outcomes|) && (i < |outcomes| ==> slots[i].phase.outcome == outcomes[i])
  }

  lemma ServedHere(s: System, k: nat, i: nat)
    requires Serial(EMPTY, s.engine, k) && Compiled(s) && i < k
    ensures forall j :: 0 <= j <= i ==> s.engine.slots[j].phase.Settled?
    ensures ServedAs(s.ops[i], s.engine.slots[i].phase.outcome,
                     SerialDb(EMPTY, s.engine.slots, i), SerialDb(EMPTY, s.engine.slots, i + 1))
  {
    assert ServedSerially(EMPTY, s.engine.slots, i);
    var p := s.engine.slots[i].phase;
    assert s.engine.slots[i].op == Compile(s.ops[i]);
    ServedIsAtomic(s.ops[i], SerialDb(EMPTY, s.engine.slots, i), p.fault, |p.replies|);
    hide Alone, Atomic, Finishes;
  }

  function Outcomes(slots: Slots, k: nat): (outcomes: seq<Reply<Val>>)
    requires k <= |slots| && forall i :: 0 <= i < k ==> slots[i].phase.Settled?
    ensures |outcomes| == k && forall i :: 0 <= i < k ==> outcomes[i] == slots[i].phase.outcome
  {
    seq(k, i requires 0 <= i < k => slots[i].phase.outcome)
  }

  function Stores(slots: Slots, k: nat): (dbs: seq<Store>)
    requires k <= |slots| && forall i :: 0 <= i < k ==> slots[i].phase.Settled?
    ensures |dbs| == k + 1 && forall i :: 0 <= i <= k ==> dbs[i] == SerialDb(EMPTY, slots, i)
  {
    seq(k + 1, i requires 0 <= i <= k => SerialDb(EMPTY, slots, i))
  }

  lemma SettledFirst(e: State<Store, Val>, k: nat)
    requires Serial(EMPTY, e, k)
    ensures k <= |e.slots| && forall i :: 0 <= i < |e.slots| ==> (e.slots[i].phase.Settled? <==> i < k)
  {
    hide AllServed, ConnectionOk;
  }

  lemma OutcomesReport(slots: Slots, k: nat)
    requires k <= |slots| && forall i :: 0 <= i < |slots| ==> (slots[i].phase.Settled? <==> i < k)
    ensures Reports(slots, Outcomes(slots, k))
  {
  }

  lemma HistoryUpTo(s: System, k: nat)
    requires Serial(EMPTY, s.engine, k) && Compiled(s)
    requires k <= |s.engine.slots| && forall i :: 0 <= i < k ==> s.engine.slots[i].phase.Settled?
    ensures IsHistory(s.ops, Outcomes(s.engine.slots, k), Stores(s.engine.slots, k))
  {
    var slots := s.engine.slots;
    assert |s.ops| == |slots|;
    var outcomes, dbs := Outcomes(slots, k), Stores(slots, k);
    hide Serial, ServedAs, SerialDb, Compiled, Outcomes, Stores;
    forall i | 0 <= i < k ensures ServedAs(s.ops[i], outcomes[i], dbs[i], dbs[i + 1]) {
      ServedHere(s, k, i);
    }
  }

  lemma HistoryOf(s: System) returns (outcomes: seq<Reply<Val>>, dbs: seq<Store>)
    requires EngineOk(s.engine) && Compiled(s)
    ensures IsHistory(s.ops, outcomes, dbs) && Reports(s.engine.slots, outcomes)
  {
    var k: nat :| Serial(EMPTY, s.engine, k);
    hide Serial, IsHistory, Reports, Compiled;
    SettledFirst(s.engine, k);
    HistoryUpTo(s, k);
    OutcomesReport(s.engine.slots, k);
    outcomes, dbs := Outcomes(s.engine.slots, k), Stores(s.engine.slots, k);
  }

  lemma {:induction false} HistoryExtends(ops: seq<RepoOp>, outcomes: seq<Reply<Val>>, dbs: seq<Store>, i: nat, j: nat)
    requires IsHistory(ops, outcomes, dbs) && i <= j < |dbs|
    ensures Extends(dbs[i], dbs[j])
  {
    hide ServedAs;
    if i < j {
      hide Extends;
      HistoryExtends(ops, outcomes, dbs, i, j - 1);
      assert ServedAs(ops[j - 1], outcomes[j - 1], dbs[j - 1], dbs[j - 1 + 1]);
      ServedExtends(ops[j - 1], outcomes[j - 1], dbs[j - 1], dbs[j]);
      ExtendsTransitive(dbs[i], dbs[j - 1], dbs[j]);
    }
  }

  // ---------------------------------------------------------------- single use

  /** Of two consumptions of one state, the later gets nothing if the earlier got the row. */
  lemma ConsumedOnce(ops: seq<RepoOp>, outcomes: seq<Reply<Val>>, dbs: seq<Store>, i: nat, j: nat, state: string)
    requires IsHistory(ops, outcomes, dbs) && i < j < |outcomes|
    requires ops[i] == Consume(state) && ops[j] == Consume(state)
    requires outcomes[i].Value? && outcomes[i].value.Row? && outcomes[i].value.row.Some?
    ensures outcomes[j].Error? || outcomes[j] == Value(Row(None))
  {
    assert ServedAs(ops[i], outcomes[i], dbs[i], dbs[i + 1]);
    HistoryExtends(ops, outcomes, dbs, i + 1, j);
    assert ServedAs(ops[j], outcomes[j], dbs[j], dbs[j + 1]);
  }

  /** Single use: in every state of every schedule of begins, completes and database steps, at most
      one call has redeemed a given PKCE state, so the sessions minted and the grants linked from
      one state never exceed one. */
  lemma StateIsRedeemedOnce(maxVerify: nat, states: seq<System>, actions: seq<Action>, n: nat, f: nat, g: nat)
    requires IsRun(maxVerify, states, actions) && n < |states|
    requires f < |states[n].flows| && g < |states[n].flows| && f != g
    requires states[n].flows[f].state == states[n].flows[g].state
    ensures !(Redeemed(states[n].engine.slots, states[n].flows[f]) && Redeemed(states[n].engine.slots, states[n].flows[g]))
    ensures states[n].flows[g].pc.Consuming? || states[n].flows[g].pc.Failed?
            || states[n].flows[f].pc.Consuming? || states[n].flows[f].pc.Failed?
  {
    EveryStateOk(maxVerify, states, actions, n);
    var s := states[n];
    var a, b := s.flows[f], s.flows[g];
    assert FlowOk(maxVerify, s.ops, s.engine.slots, a) && FlowOk(maxVerify, s.ops, s.engine.slots, b);
    assert Redeemed(s.engine.slots, a) && Redeemed(s.engine.slots, b) ==> a.consumeSlot != b.consumeSlot;
    var outcomes, dbs := HistoryOf(s);
    hide Inv;
    if Redeemed(s.engine.slots, a) && Redeemed(s.engine.slots, b) {
      if a.consumeSlot < b.consumeSlot {
        ConsumedOnce(s.ops, outcomes, dbs, a.consumeSlot, b.consumeSlot, a.state);
      } else {
        ConsumedOnce(s.ops, outcomes, dbs, b.consumeSlot, a.consumeSlot, a.state);
      }
      assert false;
    }
  }

  /** The call minted a session or handed out a grant. */
  predicate Won(f: Flow, state: string) {
    f.state == state && (f.pc.Minted? || f.pc.Granted?)
  }

  function Wins(flows: seq<Flow>, state: string): nat {
    if flows == [] then 0
    else Wins(flows[..|flows| - 1], state) + if Won(flows[|flows| - 1], state) then 1 else 0
  }

  lemma {:induction false} PairwiseMeansOne(flows: seq<Flow>, state: string)
    requires forall f, g :: 0 <= f < g < |flows| ==> !(Won(flows[f], state) && Won(flows[g], state))
    ensures Wins(flows, state) <= 1
    ensures Wins(flows, state) > 0 ==> exists f :: 0 <= f < |flows| && Won(flows[f], state)
  {
    if flows != [] {
      var front := flows[..|flows| - 1];
      PairwiseMeansOne(front, state);
      if Wins(front, state) > 0 {
        var f :| 0 <= f < |front| && Won(front[f], state);
        assert flows[f] == front[f];
      }
    }
  }

  /** Sessions minted plus grants handed out from one state never exceed one. */
  lemma OneWinPerState(maxVerify: nat, states: seq<System>, actions: seq<Action>, n: nat, state: string)
    requires IsRun(maxVerify, states, actions) && n < |states|
    ensures Wins(states[n].flows, state) <= 1
  {
    var flows := states[n].flows;
    hide IsRun;
    forall f, g | 0 <= f < g < |flows| ensures !(Won(flows[f], state) && Won(flows[g], state)) {
      if Won(flows[f], state) && Won(flows[g], state) {
        StateIsRedeemedOnce(maxVerify, states, actions, n, f, g);
        assert false;
      }
    }
    PairwiseMeansOne(flows, state);
  }

  /** A grant is handed out only after a valid verdict, reached within the allowed number of calls,
      all earlier ones inconclusive, by a link call that redeemed its state. */
  lemma GrantWasVerified(maxVerify: nat, states: seq<System>, actions: seq<Action>, n: nat, f: nat)
    requires IsRun(maxVerify, states, actions) && n < |states| && f < |states[n].flows|
    requires states[n].flows[f].pc.Granted?
    ensures var flow := states[n].flows[f];
            var v := flow.pc.verdicts;
            && !flow.isLogin && Redeemed(states[n].engine.slots, flow)
            && 1 <= |v| <= maxVerify && v[|v| - 1] == Valid
            && forall i :: 0 <= i < |v| - 1 ==> v[i] == Inconclusive
  {
    EveryStateOk(maxVerify, states, actions, n);
    var flow := states[n].flows[f];
    assert FlowOk(maxVerify, states[n].ops, states[n].engine.slots, flow);
    var v := flow.pc.verdicts;
    assert forall i :: 0 <= i < |v| - 1 ==> v[..|v| - 1][i] == v[i];
  }

  // ---------------------------------------------------------------- the grant is as it was begun

  lemma CreatesIt(op: RepoOp, outcome: Reply<Val>, db: Store, after: Store, state: string)
    requires ServedAs(op, outcome, db, after) && state !in db.pkce && state in after.pkce
    ensures op.CreatePkce? && op.state == state && outcome.Value? && SameTerms(op.row, after.pkce[state])
  {
  }

  /** Operation c created the row of this state with these terms. */
  ghost predicate CreatedAt(ops: seq<RepoOp>, outcomes: seq<Reply<Val>>, c: int, state: string, row: PkceRow) {
    && 0 <= c < |ops| && c < |outcomes| && outcomes[c].Value?
    && ops[c].CreatePkce? && ops[c].state == state && SameTerms(ops[c].row, row)
  }

  lemma {:induction false} RowWasCreated(ops: seq<RepoOp>, outcomes: seq<Reply<Val>>, dbs: seq<Store>, n: nat, state: string)
    requires IsHistory(ops, outcomes, dbs) && n < |dbs| && state in dbs[n].pkce
    ensures exists c :: 0 <= c < n && CreatedAt(ops, outcomes, c, state, dbs[n].pkce[state])
  {
    if n > 0 {
      assert ServedAs(ops[n - 1], outcomes[n - 1], dbs[n - 1], dbs[n - 1 + 1]);
      if state in dbs[n - 1].pkce {
        RowWasCreated(ops, outcomes, dbs, n - 1, state);
        ServedExtends(ops[n - 1], outcomes[n - 1], dbs[n - 1], dbs[n]);
        hide ServedAs, IsHistory;
        var c :| 0 <= c < n - 1 && CreatedAt(ops, outcomes, c, state, dbs[n - 1].pkce[state]);
        assert CreatedAt(ops, outcomes, c, state, dbs[n].pkce[state]);
      } else {
        CreatesIt(ops[n - 1], outcomes[n - 1], dbs[n - 1], dbs[n], state);
        hide ServedAs, IsHistory;
        assert CreatedAt(ops, outcomes, n - 1, state, dbs[n].pkce[state]);
      }
    }
  }

  lemma ConsumedRowIsStored(op: RepoOp, outcome: Reply<Val>, db: Store, after: Store, state: string, row: PkceRow)
    requires ServedAs(op, outcome, db, after) && op == Consume(state) && outcome == Value(Row(Some(row)))
    ensures state in db.pkce && db.pkce[state] == row
  {
  }

  /** Only a begin enqueues a creation. */
  lemma {:induction false} CreationWasBegun(maxVerify: nat, states: seq<System>, actions: seq<Action>, n: nat, c: nat)
    requires IsRun(maxVerify, states, actions) && n < |states| && c < |states[n].ops| && states[n].ops[c].CreatePkce?
    ensures exists j :: 0 <= j < n && j < |actions| && actions[j] == Begin(states[n].ops[c].state, states[n].ops[c].row)
  {
    if n > 0 {
      var s, s', a := states[n - 1], states[n], actions[n - 1];
      assert StepsTo(maxVerify, states[n - 1], actions[n - 1], states[n - 1 + 1]);
      if c < |s.ops| {
        OpsOnlyGrow(maxVerify, s, a);
        CreationWasBegun(maxVerify, states, actions, n - 1, c);
        hide IsRun, StepsTo;
        var j :| 0 <= j < n - 1 && j < |actions| && actions[j] == Begin(s.ops[c].state, s.ops[c].row);
        assert actions[j] == Begin(s'.ops[c].state, s'.ops[c].row);
      } else {
        NewCreationIsBegin(maxVerify, s, a, c);
        assert actions[n - 1] == Begin(s'.ops[c].state, s'.ops[c].row);
      }
    }
  }

  lemma OpsOnlyGrow(maxVerify: nat, s: System, a: Action)
    requires Enabled(s, a)
    ensures s.ops <= Next(maxVerify, s, a).ops
  {
    hide Compile, Enqueued, Stepped, Advance;
  }

  lemma NewCreationIsBegin(maxVerify: nat, s: System, a: Action, c: nat)
    requires Enabled(s, a) && |s.ops| <= c < |Next(maxVerify, s, a).ops| && Next(maxVerify, s, a).ops[c].CreatePkce?
    ensures a == Begin(Next(maxVerify, s, a).ops[c].state, Next(maxVerify, s, a).ops[c].row)
  {
    hide Compile, Enqueued, Stepped;
  }

  /** A grant goes where its link was begun for: the pool and the owner handed out with a grant are
      those of the `Begin` that created its state, which was the begin of a link and named a pool. */
  lemma GrantIsAsBegun(maxVerify: nat, states: seq<System>, actions: seq<Action>, n: nat, f: nat) returns (begun: PkceRow)
    requires IsRun(maxVerify, states, actions) && n < |states| && f < |states[n].flows|
    requires states[n].flows[f].pc.Granted?
    ensures exists j :: 0 <= j < n && j < |actions| && actions[j] == Begin(states[n].flows[f].state, begun)
    ensures var row := states[n].flows[f].pc.row;
            !begun.isLogin && begun.pool.Some? && row.pool == begun.pool && row.owner == begun.owner
  {
    EveryStateOk(maxVerify, states, actions, n);
    var s := states[n];
    var flow := s.flows[f];
    assert FlowOk(maxVerify, s.ops, s.engine.slots, flow);
    var outcomes, dbs := HistoryOf(s);
    var c := GrantCreation(s.ops, s.engine.slots, outcomes, dbs, flow);
    hide Inv, FlowOk, IsHistory, Reports;
    begun := s.ops[c].row;
    CreationWasBegun(maxVerify, states, actions, n, c);
  }

  lemma GrantCreation(ops: seq<RepoOp>, slots: Slots, outcomes: seq<Reply<Val>>, dbs: seq<Store>, f: Flow) returns (c: nat)
    requires IsHistory(ops, outcomes, dbs) && Reports(slots, outcomes)
    requires f.pc.Granted? && GaveRow(slots, f, f.pc.row) && IsOp(ops, f.consumeSlot, Consume(f.state))
    ensures CreatedAt(ops, outcomes, c, f.state, f.pc.row)
  {
    var i := f.consumeSlot;
    assert ServedAs(ops[i], outcomes[i], dbs[i], dbs[i + 1]);
    ConsumedRowIsStored(ops[i], outcomes[i], dbs[i], dbs[i + 1], f.state, f.pc.row);
    RowWasCreated(ops, outcomes, dbs, i, f.state);
    hide IsHistory, Reports, GaveRow, ServedAs;
    c :| 0 <= c < i && CreatedAt(ops, outcomes, c, f.state, f.pc.row);
  }

  // ---------------------------------------------------------------- one user per identity

  lemma EstablishedIsStored(s: System, outcomes: seq<Reply<Val>>, dbs: seq<Store>, key: Key, user: UserId, proof: nat)
    requires IsHistory(s.ops, outcomes, dbs) && Reports(s.engine.slots, outcomes)
    requires Established(s.ops, s.engine.slots, key, user, proof)
    ensures proof < |outcomes| && key in dbs[proof + 1].identities && dbs[proof + 1].identities[key] == user
  {
    assert ServedAs(s.ops[proof], outcomes[proof], dbs[proof], dbs[proof + 1]);
  }

  lemma SameUser(s: System, key: Key, u: UserId, p: nat, v: UserId, q: nat)
    requires EngineOk(s.engine) && Compiled(s) && p <= q
    requires Established(s.ops, s.engine.slots, key, u, p) && Established(s.ops, s.engine.slots, key, v, q)
    ensures u == v
  {
    var outcomes, dbs := HistoryOf(s);
    EstablishedIsStored(s, outcomes, dbs, key, u, p);
    EstablishedIsStored(s, outcomes, dbs, key, v, q);
    hide EngineOk, Compiled, Established, Reports;
    HistoryExtends(s.ops, outcomes, dbs, p + 1, q + 1);
  }

  /** One user per external identity: in every state of every schedule, two logins that mint, or
      have minted, a session for the same issuer and subject do so for the same user. */
  lemma OneUserPerIdentity(maxVerify: nat, states: seq<System>, actions: seq<Action>, n: nat, f: nat, g: nat)
    requires IsRun(maxVerify, states, actions) && n < |states| && f < |states[n].flows| && g < |states[n].flows|
    requires states[n].flows[f].pc.Minting? || states[n].flows[f].pc.Minted?
    requires states[n].flows[g].pc.Minting? || states[n].flows[g].pc.Minted?
    requires states[n].flows[f].pc.key == states[n].flows[g].pc.key
    ensures states[n].flows[f].pc.user == states[n].flows[g].pc.user
    ensures var pc := states[n].flows[f].pc;
            pc.slot < |states[n].ops| && states[n].ops[pc.slot].InsertSession? && states[n].ops[pc.slot].user == pc.user
  {
    EveryStateOk(maxVerify, states, actions, n);
    var s := states[n];
    var a, b := s.flows[f], s.flows[g];
    assert FlowOk(maxVerify, s.ops, s.engine.slots, a) && FlowOk(maxVerify, s.ops, s.engine.slots, b);
    if a.pc.proof <= b.pc.proof {
      SameUser(s, a.pc.key, a.pc.user, a.pc.proof, b.pc.user, b.pc.proof);
    } else {
      SameUser(s, b.pc.key, b.pc.user, b.pc.proof, a.pc.user, a.pc.proof);
    }
  }

  // ---------------------------------------------------------------- when a flow succeeds and why one fails

  /** What a flow is resumed with. */
  datatype Move = Move(reply: Reply<Val>, input: Input)

  /** A flow on its own, resumed move by move: where it is, and the operations it has enqueued, taken
      to be the next ones after the first `next`. */
  function Walk(maxVerify: nat, f: Flow, next: nat, moves: seq<Move>): (Flow, seq<RepoOp>)
    decreases |moves|
  {
    if moves == [] then (f, []) else
      var (pc, op) := Advance(maxVerify, f, moves[0].reply, next, moves[0].input);
      var made := if op.Some? then [op.value] else [];
      var (g, rest) := Walk(maxVerify, f.(pc := pc), next + |made|, moves[1..]);
      (g, made + rest)
  }

  lemma WalkOne(maxVerify: nat, f: Flow, next: nat, m: Move, rest: seq<Move>)
    ensures var (pc, op) := Advance(maxVerify, f, m.reply, next, m.input);
            var made := if op.Some? then [op.value] else [];
            var (g, ops) := Walk(maxVerify, f.(pc := pc), next + |made|, rest);
            Walk(maxVerify, f, next, [m] + rest) == (g, made + ops)
  {
    assert ([m] + rest)[1..] == rest;
  }

  /** A login with a good state and a good code looks the identity up. */
  lemma LoginLooksIdentityUp(maxVerify: nat, f: Flow, next: nat, row: PkceRow, key: Key, input: Input)
    requires f.isLogin && f.pc.Consuming? && row.isLogin && input.identity == Some(key)
    ensures Walk(maxVerify, f, next, [Move(Value(Row(Some(row))), input), Move(Error, input)])
         == (f.(pc := Finding(key, next)), [FindIdentity(key)])
  {
    var m0, m1 := Move(Value(Row(Some(row))), input), Move(Error, input);
    var none: seq<RepoOp> := [];
    WalkNothing(maxVerify, f.(pc := Finding(key, next)), next + 1);
    WalkOne(maxVerify, f.(pc := Exchanging(row)), next, m1, []);
    WalkOne(maxVerify, f, next, m0, [m1]);
    hide Walk;
    assert [FindIdentity(key)] + none == [FindIdentity(key)] && none + [FindIdentity(key)] == [FindIdentity(key)];
    assert [m1] + [] == [m1] && [m0] + [m1] == [m0, m1];
  }

  /** A user who has logged in before gets a session as that very user, and nothing else is written. */
  lemma ReturningUserLogsIn(maxVerify: nat, f: Flow, next: nat, key: Key, user: UserId, input: Input)
    requires f.isLogin && f.pc == Finding(key, next)
    ensures var (g, ops) := Walk(maxVerify, f, next + 1, [Move(Value(Found(Some(user))), input), Move(Value(Changed), input)]);
            && g.pc.Minted? && g.pc.key == key && g.pc.user == user
            && ops == [InsertSession(input.hash, user)]
  {
    var m0, m1 := Move(Value(Found(Some(user))), input), Move(Value(Changed), input);
    WalkNothing(maxVerify, f.(pc := Minted(key, user, next, next + 1)), next + 2);
    WalkOne(maxVerify, f.(pc := Minting(key, user, next, next + 1)), next + 2, m1, []);
    WalkOne(maxVerify, f, next + 1, m0, [m1]);
    hide Walk;
    assert [m1] + [] == [m1] && [m0] + [m1] == [m0, m1];
  }

  lemma WalkNothing(maxVerify: nat, f: Flow, next: nat)
    ensures Walk(maxVerify, f, next, []) == (f, [])
  {
  }

  /** A new user: the user is made, linked, and given a session. */
  lemma NewUserLogsIn(maxVerify: nat, f: Flow, next: nat, key: Key, input: Input)
    requires f.isLogin && f.pc == Finding(key, next)
    ensures var changed := Move(Value(Changed), input);
            var (g, ops) := Walk(maxVerify, f, next + 1, [Move(Value(Found(None)), input), changed, changed, changed]);
            && g.pc.Minted? && g.pc.key == key && g.pc.user == input.newUser
            && ops == [InsertUser(input.newUser), LinkIdentity(key, input.newUser), InsertSession(input.hash, input.newUser)]
  {
    var m0, c := Move(Value(Found(None)), input), Move(Value(Changed), input);
    var u, done: Reply<Val> := input.newUser, Value(Changed);
    var f1 := f.(pc := Creating(key, u, next + 1));
    var f2 := f.(pc := Linking(key, u, next + 2));
    var f3 := f.(pc := Minting(key, u, next + 2, next + 3));
    assert Advance(maxVerify, f, m0.reply, next + 1, input) == (f1.pc, Some(InsertUser(u)));
    assert Advance(maxVerify, f1, done, next + 2, input) == (f2.pc, Some(LinkIdentity(key, u)));
    assert Advance(maxVerify, f2, done, next + 3, input) == (f3.pc, Some(InsertSession(input.hash, u)));
    assert Advance(maxVerify, f3, done, next + 4, input) == (Minted(key, u, next + 2, next + 3), None);
    WalkNothing(maxVerify, f.(pc := Minted(key, u, next + 2, next + 3)), next + 4);
    hide Walk, Advance;
    WalkOne(maxVerify, f3, next + 4, c, []);
    WalkOne(maxVerify, f2, next + 3, c, [c]);
    WalkOne(maxVerify, f1, next + 2, c, [c, c]);
    WalkOne(maxVerify, f, next + 1, m0, [c, c, c]);
    assert [c] + [] == [c] && [c] + [c] == [c, c] && [c] + [c, c] == [c, c, c] && [m0] + [c, c, c] == [m0, c, c, c];
  }

  /** A link whose credentials are valid at once is granted with the row of its state. */
  lemma ValidLinkIsGranted(maxVerify: nat, f: Flow, next: nat, row: PkceRow, input: Input)
    requires !f.isLogin && f.pc.Consuming? && !row.isLogin && row.pool.Some? && maxVerify > 0
    requires input.identity.Some? && input.verdict == Some(Valid)
    ensures Walk(maxVerify, f, next, [Move(Value(Row(Some(row))), input), Move(Error, input), Move(Error, input)])
         == (f.(pc := Granted(row, [Valid])), [])
  {
    var m0, m := Move(Value(Row(Some(row))), input), Move(Error, input);
    assert [] + [Valid] == [Valid];
    assert Advance(maxVerify, f.(pc := Verifying(row, [])), Error, next, input) == (Granted(row, [Valid]), None);
    assert Advance(maxVerify, f.(pc := Exchanging(row)), Error, next, input) == (Verifying(row, []), None);
    WalkNothing(maxVerify, f.(pc := Granted(row, [Valid])), next);
    WalkOne(maxVerify, f.(pc := Verifying(row, [])), next, m, []);
    WalkOne(maxVerify, f.(pc := Exchanging(row)), next, m, [m]);
    WalkOne(maxVerify, f, next, m0, [m, m]);
    hide Walk, Advance;
    assert [m] + [] == [m] && [m] + [m] == [m, m] && [m0] + [m, m] == [m0, m, m];
  }

  /** Why a flow may fail at its next move. */
  ghost predicate HasCause(maxVerify: nat, f: Flow, reply: Reply<Val>, input: Input) {
    match f.pc
    case Consuming =>
      forall row :: reply == Value(Row(Some(row))) ==> row.isLogin != f.isLogin || (!f.isLogin && row.pool.None?)
    case Exchanging(_) => input.identity.None? || (!f.isLogin && maxVerify == 0)
    case Finding(_, _) => !(reply.Value? && reply.value.Found?)
    case Verifying(_, verdicts) =>
      || input.verdict.None?
      || input.verdict == Some(Invalid)
      || (input.verdict == Some(Inconclusive) && |verdicts| + 1 >= maxVerify)
    case _ => reply.Error?
  }

  /** A flow fails exactly for a cause: its state was unknown, used or of the other flow; the exchange
      or a statement threw; the credentials were invalid, or inconclusive to the last allowed call. */
  lemma FailsExactlyForCause(maxVerify: nat, s: System, i: nat, input: Input)
    requires Enabled(s, Resume(i, input)) && !s.flows[i].pc.Failed? && !s.flows[i].pc.Minted? && !s.flows[i].pc.Granted?
    ensures Next(maxVerify, s, Resume(i, input)).flows[i].pc.Failed? <==>
              HasCause(maxVerify, s.flows[i], ReplyOf(s, s.flows[i]), input)
  {
    hide Compile, Enqueued, ReplyOf;
  }
}
