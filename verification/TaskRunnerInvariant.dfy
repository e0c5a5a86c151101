/** The inductive invariant of the scheduler, one predicate per concern. */
module TaskRunnerInvariant {
  import opened Wrappers
  import opened ScopeModel
  import opened TaskRunner

  /** The part of an operation's life after its body has returned (or never ran). */
  predicate BodyOver(p: Phase) {
    p.Finishing? || p.Delivering? || p == Returned || p == Gone || p == Refused
  }

  predicate Active(p: Phase) {
    p == AtGate || p == Body || p.Finishing? || p.Delivering? || p == Returned
  }

  // ----- scopes and operations -----

  predicate CellOk(cell: Cell, k: nat, ops: seq<Op>) {
    && CoreOk(cell.core)
    && Life(cell.life) && |cell.life| == cell.core.revision
    && cell.life[cell.core.revision - 1] == cell.core.snapshot
    && (cell.core.cancel.Some? ==>
          var c := cell.core.cancel.value;
          && c < |ops| && ops[c].scope == k && ops[c].id == cell.core.snapshot.operation
          && !ops[c].attempted && ops[c].phase != Refused)
    && (cell.lock.Some? ==>
          cell.lock == cell.core.cancel && !cell.core.closed && ops[cell.lock.value].gate == Held)
  }

  predicate OpShape(o: Op) {
    && o.kind != NoClass && o.id >= 1 && o.revision >= 1
    && (o.phase == Body || o.phase.Finishing? || o.phase.Delivering? || o.phase == Returned || o.phase == Gone ==>
          o.gate == Open)
    && (o.phase == Unscheduled ==> o.gate == Held)
    && (o.owes ==> o.gate == Held && o.phase != Refused && o.phase != Unscheduled)
    && (o.slot ==> o.kind == Read && Active(o.phase))
    && (o.kind == Read && o.phase == AtGate && !o.slot ==> o.ctxErr != NoFailure)
    && (o.kind == Read && o.phase == Body ==> o.slot)
    && (o.phase == Queued ==> o.kind == Mutation)
    && (o.phase == Waiting ==> o.kind == Read)
    && (o.phase.Delivering? || o.phase == Returned || o.phase == Gone ==> o.attempted)
  }

  /** Superseded, cancelled or done: an operation that is not its scope's
      current one has a stopped context or a body that is over. */
  predicate Settled(o: Op) {
    o.ctxErr != NoFailure || BodyOver(o.phase)
  }

  predicate OpOk(o: Op, i: nat, scopes: seq<Cell>) {
    && OpShape(o)
    && o.scope < |scopes|
    && var cell := scopes[o.scope];
    && o.id <= cell.core.nextID
    && o.revision <= |cell.life|
    && cell.life[o.revision - 1] == LoadingSnapshot(o)
    && (cell.core.cancel == Some(i) || Settled(o))
    && (o.gate == Held && o.phase != Refused ==> cell.lock == Some(i))
  }

  predicate Distinct(ops: seq<Op>) {
    forall i, j | 0 <= i < j < |ops| && ops[i].scope == ops[j].scope :: ops[i].id < ops[j].id
  }

  predicate ScopesOk(scopes: seq<Cell>, ops: seq<Op>) {
    && (forall k | 0 <= k < |scopes| :: CellOk(scopes[k], k, ops))
    && (forall i | 0 <= i < |ops| :: OpOk(ops[i], i, scopes))
    && Distinct(ops)
  }

  // ----- deliveries -----

  predicate CallbackOk(cb: Callback, scopes: seq<Cell>) {
    && cb.scope < |scopes|
    && 1 <= cb.revision <= |scopes[cb.scope].life|
    && scopes[cb.scope].life[cb.revision - 1] == cb.snapshot
  }

  predicate SameKey(a: Callback, b: Callback) {
    a.scope == b.scope && a.revision == b.revision
  }

  /** Deliveries decided so far: real revisions, each by one sender only. */
  predicate MailOk(scopes: seq<Cell>, mail: set<Callback>) {
    && (forall cb | cb in mail :: CallbackOk(cb, scopes))
    && (forall a, b | a in mail && b in mail && SameKey(a, b) :: a == b)
  }

  /** Where the deliveries of operation i are. */
  predicate OpMailOk(o: Op, i: nat, outbox: set<Callback>, offered: set<Callback>) {
    && (o.gate == Held && o.phase != Refused ==>
          forall cb | cb in outbox + offered :: !SameKey(cb, LoadingCallback(o, i)))
    && (o.gate == Announcing ==> LoadingCallback(o, i) in outbox)
    && (o.gate == Announced || o.gate == Open ==> LoadingCallback(o, i) in offered)
    && (o.phase.Delivering? ==> o.phase.cb in outbox && o.phase.cb.sender == Task(i))
  }

  predicate OutboxOk(scopes: seq<Cell>, ops: seq<Op>, outbox: set<Callback>, offered: set<Callback>) {
    && outbox !! offered
    && MailOk(scopes, outbox + offered)
    && (forall i | 0 <= i < |ops| :: OpMailOk(ops[i], i, outbox, offered))
  }

  /** cb comes after everything in seen that its scope's observer received. */
  predicate Later(seen: seq<Callback>, cb: Callback) {
    forall a | 0 <= a < |seen| && seen[a].scope == cb.scope :: seen[a].revision < cb.revision
  }

  predicate Ordered(seen: seq<Callback>) {
    forall a, b | 0 <= a < b < |seen| && seen[a].scope == seen[b].scope :: seen[a].revision < seen[b].revision
  }

  predicate GuiOk(offered: set<Callback>, pending: set<Callback>, gui: Gui, observed: seq<Callback>) {
    && pending <= offered
    && (forall a | 0 <= a < |observed| :: observed[a] in offered && observed[a] !in pending)
    && (gui != GuiIdle ==> gui.cb in offered && gui.cb !in pending && gui.cb !in observed)
    && (gui.Calling? ==> Later(observed, gui.cb))
    && Ordered(observed)
  }

  // ----- the mutation queue -----

  function RunningNow(w: Worker): seq<nat> {
    if w.Running? then [w.op] else []
  }

  predicate OpQueueOk(o: Op, i: nat, worker: Worker) {
    o.kind == Mutation && Active(o.phase) ==> worker == Running(i)
  }

  predicate QueueOk(ops: seq<Op>, queue: seq<nat>, worker: Worker, accepted: seq<nat>, finished: seq<nat>) {
    && accepted == finished + RunningNow(worker) + queue
    && (forall j | 0 <= j < |queue| :: queue[j] < |ops| && ops[queue[j]].phase == Queued)
    && (forall j | 0 <= j < |finished| :: finished[j] < |ops| && ops[finished[j]].phase == Gone)
    && (forall a, b | 0 <= a < b < |accepted| :: accepted[a] != accepted[b])
    && (worker.Running? ==>
          worker.op < |ops| && ops[worker.op].kind == Mutation && Active(ops[worker.op].phase))
    && (forall i | 0 <= i < |ops| :: OpQueueOk(ops[i], i, worker))
  }

  predicate Owed(ops: seq<Op>) {
    exists i :: 0 <= i < |ops| && ops[i].owes
  }

  predicate WakeOk(s: System) {
    && (s.worker == Parked && (s.queue != [] || s.closed) ==> s.ready || Owed(s.ops) || s.closer.Closing?)
    && (s.worker == Exited ==> s.closed && s.queue == [])
  }

  // ----- counters -----

  function SlotHolders(ops: seq<Op>): set<nat> {
    set i | 0 <= i < |ops| && ops[i].slot
  }

  predicate LiveRead(o: Op) {
    o.kind == Read && (o.phase == Waiting || Active(o.phase))
  }

  function LiveReads(ops: seq<Op>): set<nat> {
    set i | 0 <= i < |ops| && LiveRead(ops[i])
  }

  predicate CountsOk(s: System) {
    && s.slots == |SlotHolders(s.ops)| <= s.cap
    && s.cap >= 1
    && s.wg == |s.queue| + |RunningNow(s.worker)| + |LiveReads(s.ops)|
  }

  // ----- shutdown -----

  predicate AllOpenIn(scopes: seq<Cell>, known: set<nat>) {
    forall k | 0 <= k < |scopes| :: scopes[k].core.closed || k in known
  }

  predicate CloseOk(s: System) {
    && (s.closed <==> s.closer != NotClosing)
    && (s.closed ==> s.root != NoFailure)
    && (!s.closed ==> AllOpenIn(s.scopes, s.registered))
    && (s.closer.Closing? ==> AllOpenIn(s.scopes, s.closer.todo))
    && (s.closer.ClosedDown? ==> AllOpenIn(s.scopes, {}))
    && (forall k | k in s.registered :: k < |s.scopes|)
    && (s.closer.Closing? ==> forall k | k in s.closer.todo :: k < |s.scopes|)
  }

  predicate Inv(s: System) {
    && ScopesOk(s.scopes, s.ops)
    && OutboxOk(s.scopes, s.ops, s.outbox, s.offered)
    && GuiOk(s.offered, s.pending, s.gui, s.observed)
    && QueueOk(s.ops, s.queue, s.worker, s.accepted, s.finished)
    && WakeOk(s) && CountsOk(s) && CloseOk(s)
  }

  lemma InitialInv(cap: nat)
    requires cap >= 1
    ensures Inv(Initial(cap))
  {
    assert SlotHolders([]) == {} && LiveReads([]) == {};
  }
}
