/** The task scheduler as a transition system: one event per mutex section,
    channel operation, context signal or dispatcher call. */
module TaskRunner {
  import opened Wrappers
  import opened ScopeModel

  /** Who hands a callback to the dispatcher. */
  datatype Sender = Caller | Starter(op: nat) | Task(op: nat)

  datatype Callback = Callback(scope: nat, revision: nat, snapshot: Snapshot, sender: Sender)

  /** The start gate: Held while the starter keeps the scope mutex, then the
      loading delivery is made, and only then is the gate closed-channel open. */
  datatype Gate = Held | Announcing | Announced | Open

  datatype Phase =
    | Unscheduled
    | Refused
    | Queued
    | Waiting
    | AtGate
    | Body
    | Finishing(out: Outcome)
    | Delivering(cb: Callback)
    | Returned
    | Gone

  /** One operation: its scheduled closure and its context. owes is true while
      the submitter still has to signal the mutation worker; attempted is true
      once finish has run its mutex section. */
  datatype Op = Op(scope: nat, id: nat, kind: OperationClass, revision: nat, phase: Phase,
                   ctxErr: Failure, gate: Gate, slot: bool, owes: bool, attempted: bool)

  /** A scope: its fields, the snapshots of all its revisions, the starter that
      holds its mutex across schedule, and whether it has an observer. */
  datatype Cell = Cell(core: Core, life: seq<Snapshot>, lock: Option<nat>, watched: bool)

  datatype Worker = Parked | Draining | Running(op: nat) | Exited

  datatype Closer = NotClosing | Closing(todo: set<nat>) | ClosedDown

  /** The dispatcher runs callbacks one at a time, in any order. */
  datatype Gui = GuiIdle | Taken(cb: Callback) | Calling(cb: Callback)

  datatype System = System(
    closed: bool, root: Failure, registered: set<nat>, closer: Closer,
    queue: seq<nat>, ready: bool, worker: Worker, slots: nat, cap: nat, wg: nat,
    scopes: seq<Cell>, ops: seq<Op>,
    outbox: set<Callback>, offered: set<Callback>, pending: set<Callback>, gui: Gui,
    accepted: seq<nat>, finished: seq<nat>, observed: seq<Callback>)

  /** Steps of startWithPolicy and NewScope. */
  datatype SubmitEvent =
    | NewScope(watched: bool)
    | StartBegin(k: nat, kind: OperationClass, exclusive: bool)
    | StartSchedule(k: nat)
    | StartSignal(k: nat)
    | StartUnlock(k: nat)
    | DispatchLoading(i: nat)
    | OpenGate(i: nat)

  /** Steps of a scheduled closure and of a read goroutine around it. */
  datatype TaskEvent =
    | Propagate(i: nat)
    | AcquireSlot(i: nat)
    | SkipSlot(i: nat)
    | PassGate(i: nat)
    | BodyReturns(i: nat, out: Outcome)
    | FinishSection(i: nat)
    | DispatchTerminal(i: nat)
    | DispatchPanics(i: nat, code: nat)
    | ReleaseSlot(i: nat)
    | ReadDone(i: nat)

  /** Steps of the mutation worker. */
  datatype WorkerEvent = Wake | Take | Complete

  /** Calls on a scope, the parent context, and Runner.Close. */
  datatype ControlEvent =
    | CancelScope(k: nat)
    | InvalidateScope(k: nat)
    | CloseScope(k: nat)
    | Unregister(k: nat)
    | ParentDone(err: Failure)
    | CloserBegin
    | CloserScope(k: nat)
    | CloserSignal

  /** Deliveries by callers of the scope, and callbacks the dispatcher runs. */
  datatype GuiEvent =
    | Dispatch(cb: Callback)
    | GuiTake(cb: Callback)
    | GuiCheck
    | GuiCall

  datatype Event =
    | Submit(submit: SubmitEvent)
    | TaskStep(task: TaskEvent)
    | WorkerStep(work: WorkerEvent)
    | Control(control: ControlEvent)
    | Ui(ui: GuiEvent)

  /** New with a positive read limit. */
  function Initial(cap: nat): System
    requires cap >= 1
  {
    System(false, NoFailure, {}, NotClosing, [], false, Parked, 0, cap, 0, [], [], {}, {}, {}, GuiIdle, [], [], [])
  }

  function LoadingSnapshot(o: Op): Snapshot {
    Snapshot(o.id, o.kind, Loading, ZERO, NoFailure)
  }

  function LoadingCallback(o: Op, i: nat): Callback {
    Callback(o.scope, o.revision, LoadingSnapshot(o), Starter(i))
  }

  function Stop(o: Op): Op {
    if o.ctxErr == NoFailure then o.(ctxErr := Canceled) else o
  }

  function CancelCtx(ops: seq<Op>, c: Option<nat>): seq<Op> {
    if c.Some? && c.value < |ops| then ops[c.value := Stop(ops[c.value])] else ops
  }

  /** The cell after a mutex section that leaves the fields as c. */
  function Push(cell: Cell, c: Core): Cell {
    cell.(core := c, life := if c.revision > cell.core.revision then cell.life + [c.snapshot] else cell.life)
  }

  predicate Unlocked(s: System, k: nat) {
    k < |s.scopes| && s.scopes[k].lock.None?
  }

  predicate Locked(s: System, k: nat) {
    k < |s.scopes| && s.scopes[k].lock.Some? && s.scopes[k].lock.value < |s.ops|
  }

  predicate CanSubmit(s: System, e: SubmitEvent) {
    match e
    case NewScope(_) => true
    case StartBegin(k, kind, _) => Unlocked(s, k) && kind != NoClass
    case StartSchedule(k) => Locked(s, k) && s.ops[s.scopes[k].lock.value].phase == Unscheduled
    case StartSignal(k) => Locked(s, k) && s.ops[s.scopes[k].lock.value].owes
    case StartUnlock(k) =>
      Locked(s, k) && var o := s.ops[s.scopes[k].lock.value]; !o.owes && o.phase != Unscheduled
    case DispatchLoading(i) => i < |s.ops| && s.ops[i].gate == Announcing && s.ops[i].scope < |s.scopes|
    case OpenGate(i) => i < |s.ops| && s.ops[i].gate == Announced
  }

  predicate CanTask(s: System, e: TaskEvent) {
    && e.i < |s.ops| && s.ops[e.i].scope < |s.scopes|
    && var o := s.ops[e.i];
    match e
    case Propagate(i) => s.root != NoFailure && o.ctxErr == NoFailure
    case AcquireSlot(i) => o.phase == Waiting && s.slots < s.cap
    case SkipSlot(i) => o.phase == Waiting && o.ctxErr != NoFailure
    case PassGate(i) => o.phase == AtGate && o.gate == Open
    case BodyReturns(i, _) => o.phase == Body
    case FinishSection(i) => o.phase.Finishing? && Unlocked(s, o.scope)
    case DispatchTerminal(i) => o.phase.Delivering? && o.phase.cb.scope < |s.scopes|
    case DispatchPanics(i, _) => o.phase.Delivering? && o.phase.cb.scope < |s.scopes|
    case ReleaseSlot(i) => o.phase == Returned && o.slot && s.slots > 0
    case ReadDone(i) => o.phase == Returned && o.kind == Read && !o.slot && s.wg > 0
  }

  predicate CanWork(s: System, e: WorkerEvent) {
    match e
    case Wake => s.worker == Parked && s.ready
    case Take => s.worker == Draining && (s.queue == [] || s.queue[0] < |s.ops|)
    case Complete =>
      s.worker.Running? && s.worker.op < |s.ops| && s.ops[s.worker.op].phase == Returned && s.wg > 0
  }

  predicate CanControl(s: System, e: ControlEvent) {
    match e
    case CancelScope(k) => Unlocked(s, k)
    case InvalidateScope(k) => Unlocked(s, k)
    case CloseScope(k) => Unlocked(s, k)
    case Unregister(k) => k < |s.scopes| && s.scopes[k].core.closed
    case ParentDone(err) => s.root == NoFailure && (err == Canceled || err == DeadlineExceeded)
    case CloserBegin => !s.closed
    case CloserScope(k) => s.closer.Closing? && k in s.closer.todo && Unlocked(s, k)
    case CloserSignal => s.closer.Closing? && s.closer.todo == {}
  }

  predicate CanUi(s: System, e: GuiEvent) {
    match e
    case Dispatch(cb) => cb in s.outbox && cb.sender == Caller && cb.scope < |s.scopes|
    case GuiTake(cb) => s.gui == GuiIdle && cb in s.pending
    case GuiCheck => s.gui.Taken? && Unlocked(s, s.gui.cb.scope)
    case GuiCall => s.gui.Calling?
  }

  predicate Enabled(s: System, e: Event) {
    match e
    case Submit(x) => CanSubmit(s, x)
    case TaskStep(x) => CanTask(s, x)
    case WorkerStep(x) => CanWork(s, x)
    case Control(x) => CanControl(s, x)
    case Ui(x) => CanUi(s, x)
  }

  /** A deliver call returns (or the dispatcher panics); a scope without
      observer never reaches the dispatcher. A callback the dispatcher loses
      is one that stays pending. */
  function Offer(s: System, cb: Callback): System
    requires cb.scope < |s.scopes|
  {
    s.(outbox := s.outbox - {cb}, offered := s.offered + {cb},
       pending := if s.scopes[cb.scope].watched then s.pending + {cb} else s.pending)
  }

  function SetOp(s: System, i: nat, o: Op): System
    requires i < |s.ops|
  {
    s.(ops := s.ops[i := o])
  }

  function Begun(s: System, k: nat, kind: OperationClass, exclusive: bool): System
    requires k < |s.scopes|
  {
    var cell := s.scopes[k];
    if cell.core.closed || Busy(cell.core, exclusive) then s
    else
      var i := |s.ops|;
      var c := Begin(cell.core, i, kind);
      var o := Op(k, c.nextID, kind, c.revision, Unscheduled, s.root, Held, false, false, false);
      s.(ops := CancelCtx(s.ops, cell.core.cancel) + [o], scopes := s.scopes[k := Push(cell, c).(lock := Some(i))])
  }

  function Scheduled(s: System, k: nat): System
    requires Locked(s, k)
  {
    var cell := s.scopes[k];
    var i := cell.lock.value;
    var o := s.ops[i];
    if s.closed then
      s.(ops := s.ops[i := Stop(o).(phase := Refused)],
         scopes := s.scopes[k := Push(cell, Reject(cell.core)).(lock := None)])
    else if o.kind == Mutation then
      s.(ops := s.ops[i := o.(phase := Queued, owes := true)], wg := s.wg + 1,
         queue := s.queue + [i], accepted := s.accepted + [i])
    else s.(ops := s.ops[i := o.(phase := Waiting)], wg := s.wg + 1)
  }

  function Unlocking(s: System, k: nat): System
    requires Locked(s, k)
  {
    var cell := s.scopes[k];
    var i := cell.lock.value;
    var o := s.ops[i];
    s.(ops := s.ops[i := o.(gate := Announcing)], scopes := s.scopes[k := cell.(lock := None)],
       outbox := s.outbox + {LoadingCallback(o, i)})
  }

  function Finished(s: System, i: nat): System
    requires i < |s.ops| && s.ops[i].phase.Finishing? && s.ops[i].scope < |s.scopes|
  {
    var o := s.ops[i];
    var cell := s.scopes[o.scope];
    if !Commits(cell.core, o.id) then SetOp(s, i, o.(attempted := true, phase := Returned))
    else
      var c := Finish(cell.core, o.id, o.ctxErr, o.phase.out);
      var cb := Callback(o.scope, c.revision, c.snapshot, Task(i));
      s.(ops := s.ops[i := o.(attempted := true, phase := Delivering(cb))],
         scopes := s.scopes[o.scope := Push(cell, c)], outbox := s.outbox + {cb})
  }

  /** A mutex section of scope k that replaces its fields by c and cancels the
      context of the operation the fields named. */
  function Replace(s: System, k: nat, c: Core): System
    requires k < |s.scopes|
  {
    s.(ops := CancelCtx(s.ops, s.scopes[k].core.cancel), scopes := s.scopes[k := Push(s.scopes[k], c)])
  }

  function Cancelling(s: System, k: nat): System
    requires k < |s.scopes|
  {
    var core := s.scopes[k].core;
    if !Cancellable(core) then s
    else
      var c := Cancel(core);
      Replace(s, k, c).(outbox := s.outbox + {Callback(k, c.revision, c.snapshot, Caller)})
  }

  function ClosingScope(s: System, k: nat): System
    requires k < |s.scopes|
  {
    if s.scopes[k].core.closed then s else Replace(s, k, Close(s.scopes[k].core))
  }

  function Submitted(s: System, e: SubmitEvent): System
    requires CanSubmit(s, e)
  {
    match e
    case NewScope(watched) =>
      if s.closed then s
      else
        var k := |s.scopes|;
        var c := InitialCore();
        s.(scopes := s.scopes + [Cell(c, [c.snapshot], None, watched)], registered := s.registered + {k},
           outbox := s.outbox + {Callback(k, c.revision, c.snapshot, Caller)})
    case StartBegin(k, kind, exclusive) => Begun(s, k, kind, exclusive)
    case StartSchedule(k) => Scheduled(s, k)
    case StartSignal(k) =>
      var i := s.scopes[k].lock.value;
      SetOp(s, i, s.ops[i].(owes := false)).(ready := true)
    case StartUnlock(k) => Unlocking(s, k)
    case DispatchLoading(i) =>
      Offer(SetOp(s, i, s.ops[i].(gate := Announced)), LoadingCallback(s.ops[i], i))
    case OpenGate(i) => SetOp(s, i, s.ops[i].(gate := Open))
  }

  function Tasked(s: System, e: TaskEvent): System
    requires CanTask(s, e)
  {
    var i, o := e.i, s.ops[e.i];
    match e
    case Propagate(_) => SetOp(s, i, o.(ctxErr := s.root))
    case AcquireSlot(_) => SetOp(s, i, o.(slot := true, phase := AtGate)).(slots := s.slots + 1)
    case SkipSlot(_) => SetOp(s, i, o.(phase := AtGate))
    case PassGate(_) =>
      SetOp(s, i, o.(phase := if o.ctxErr != NoFailure then Finishing(Outcome(ZERO, o.ctxErr)) else Body))
    case BodyReturns(_, out) => SetOp(s, i, o.(phase := Finishing(out)))
    case FinishSection(_) => Finished(s, i)
    case DispatchTerminal(_) => Offer(SetOp(s, i, Stop(o).(phase := Returned)), o.phase.cb)
    case DispatchPanics(_, code) =>
      Offer(SetOp(s, i, Stop(o).(phase := Finishing(Outcome(ZERO, TaskError(code))))), o.phase.cb)
    case ReleaseSlot(_) => SetOp(s, i, o.(slot := false)).(slots := s.slots - 1)
    case ReadDone(_) => SetOp(s, i, o.(phase := Gone)).(wg := s.wg - 1)
  }

  function Worked(s: System, e: WorkerEvent): System
    requires CanWork(s, e)
  {
    match e
    case Wake => s.(ready := false, worker := Draining)
    case Take =>
      if s.queue == [] then s.(worker := if s.closed then Exited else Parked)
      else
        var i := s.queue[0];
        SetOp(s, i, s.ops[i].(phase := AtGate)).(worker := Running(i), queue := s.queue[1..])
    case Complete =>
      var i := s.worker.op;
      SetOp(s, i, s.ops[i].(phase := Gone)).(wg := s.wg - 1, worker := Draining, finished := s.finished + [i])
  }

  function Controlled(s: System, e: ControlEvent): System
    requires CanControl(s, e)
  {
    match e
    case CancelScope(k) => Cancelling(s, k)
    case InvalidateScope(k) =>
      if s.scopes[k].core.closed then s else Replace(s, k, Invalidate(s.scopes[k].core))
    case CloseScope(k) => ClosingScope(s, k)
    case Unregister(k) => s.(registered := s.registered - {k})
    case ParentDone(err) => s.(root := err)
    case CloserBegin =>
      s.(closed := true, root := if s.root == NoFailure then Canceled else s.root,
         closer := Closing(s.registered), registered := {})
    case CloserScope(k) => ClosingScope(s, k).(closer := Closing(s.closer.todo - {k}))
    case CloserSignal => s.(ready := true, closer := ClosedDown)
  }

  function Shown(s: System, e: GuiEvent): System
    requires CanUi(s, e)
  {
    match e
    case Dispatch(cb) => Offer(s, cb)
    case GuiTake(cb) => s.(pending := s.pending - {cb}, gui := if s.closed then GuiIdle else Taken(cb))
    case GuiCheck =>
      var cb := s.gui.cb;
      var core := s.scopes[cb.scope].core;
      s.(gui := if !core.closed && core.revision == cb.revision then Calling(cb) else GuiIdle)
    case GuiCall => s.(observed := s.observed + [s.gui.cb], gui := GuiIdle)
  }

  function Apply(s: System, e: Event): System
    requires Enabled(s, e)
  {
    match e
    case Submit(x) => Submitted(s, x)
    case TaskStep(x) => Tasked(s, x)
    case WorkerStep(x) => Worked(s, x)
    case Control(x) => Controlled(s, x)
    case Ui(x) => Shown(s, x)
  }
}
