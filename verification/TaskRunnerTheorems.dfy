/** What the scheduler guarantees in every reachable state and over every run. */
module TaskRunnerTheorems {
  import opened Wrappers
  import opened ScopeModel
  import opened TaskRunner
  import opened TaskRunnerInvariant
  import opened TaskRunnerScopes
  import opened TaskRunnerMail
  import opened TaskRunnerQueue

  lemma MoveQueue(s: System, i: nat, p: Op)
    requires QueueOk(s.ops, s.queue, s.worker, s.accepted, s.finished)
    requires i < |s.ops| && KeepsPlace(s.ops[i], p)
    ensures QueueOk(s.ops[i := p], s.queue, s.worker, s.accepted, s.finished)
  {
    QueueFrame(s, s.ops[i := p]);
  }

  lemma SubmitQueue(s: System, e: SubmitEvent)
    requires QueueOk(s.ops, s.queue, s.worker, s.accepted, s.finished) && CanSubmit(s, e)
    ensures var t := Submitted(s, e); QueueOk(t.ops, t.queue, t.worker, t.accepted, t.finished)
  {
    match e {
      case NewScope(_) =>
      case StartBegin(k, kind, exclusive) => QueueFrame(s, Begun(s, k, kind, exclusive).ops);
      case StartSchedule(k) => AcceptQueue(s, k);
      case StartSignal(k) =>
        var i := s.scopes[k].lock.value;
        MoveQueue(s, i, s.ops[i].(owes := false));
      case StartUnlock(k) =>
        var i := s.scopes[k].lock.value;
        MoveQueue(s, i, s.ops[i].(gate := Announcing));
      case DispatchLoading(i) => MoveQueue(s, i, s.ops[i].(gate := Announced));
      case OpenGate(i) => MoveQueue(s, i, s.ops[i].(gate := Open));
    }
  }

  lemma SubmitGui(s: System, e: SubmitEvent)
    requires Inv(s) && CanSubmit(s, e)
    ensures var t := Submitted(s, e); GuiOk(t.offered, t.pending, t.gui, t.observed)
  {
    if e.DispatchLoading? {
      assert OpMailOk(s.ops[e.i], e.i, s.outbox, s.offered) && OpOk(s.ops[e.i], e.i, s.scopes);
      OfferGui(s, LoadingCallback(s.ops[e.i], e.i));
    }
  }

  lemma SubmitInv(s: System, e: SubmitEvent)
    requires Inv(s) && CanSubmit(s, e)
    ensures Inv(Submitted(s, e))
  {
    SubmitScopes(s, e);
    SubmitMail(s, e);
    SubmitGui(s, e);
    SubmitQueue(s, e);
    SubmitCounts(s, e);
    SubmitWake(s, e);
    SubmitClose(s, e);
  }

  lemma TaskQueue(s: System, e: TaskEvent)
    requires Inv(s) && CanTask(s, e)
    ensures var t := Tasked(s, e); QueueOk(t.ops, t.queue, t.worker, t.accepted, t.finished)
  {
    KeepsItsPlace(s, e);
    MoveQueue(s, e.i, Tasked(s, e).ops[e.i]);
  }

  lemma KeepsItsPlace(s: System, e: TaskEvent)
    requires ScopesOk(s.scopes, s.ops) && CanTask(s, e)
    ensures
      var t := Tasked(s, e);
      && |t.ops| == |s.ops| && t.ops == s.ops[e.i := t.ops[e.i]] && KeepsPlace(s.ops[e.i], t.ops[e.i])
      && t.queue == s.queue && t.worker == s.worker && t.accepted == s.accepted && t.finished == s.finished
  {
    assert OpOk(s.ops[e.i], e.i, s.scopes);
  }

  lemma TaskGui(s: System, e: TaskEvent)
    requires Inv(s) && CanTask(s, e)
    ensures var t := Tasked(s, e); GuiOk(t.offered, t.pending, t.gui, t.observed)
  {
    assert OpMailOk(s.ops[e.i], e.i, s.outbox, s.offered);
    if e.DispatchTerminal? || e.DispatchPanics? { OfferGui(s, s.ops[e.i].phase.cb); }
  }

  lemma TaskInv(s: System, e: TaskEvent)
    requires Inv(s) && CanTask(s, e)
    ensures Inv(Tasked(s, e))
  {
    TaskScopes(s, e);
    TaskMail(s, e);
    TaskCounts(s, e);
    TaskWake(s, e);
    TaskClose(s, e);
    TaskQueue(s, e);
    TaskGui(s, e);
  }

  lemma WorkInv(s: System, e: WorkerEvent)
    requires Inv(s) && CanWork(s, e)
    ensures Inv(Worked(s, e))
  {
    WorkScopes(s, e);
    WorkMail(s, e);
    WorkCounts(s, e);
    WorkQueue(s, e);
  }

  lemma ControlQueue(s: System, e: ControlEvent)
    requires QueueOk(s.ops, s.queue, s.worker, s.accepted, s.finished) && CanControl(s, e)
    ensures var t := Controlled(s, e); QueueOk(t.ops, t.queue, t.worker, t.accepted, t.finished)
  {
    if e.CancelScope? || e.InvalidateScope? || e.CloseScope? || e.CloserScope? {
      QueueFrame(s, CancelCtx(s.ops, s.scopes[e.k].core.cancel));
    }
  }

  lemma ControlInv(s: System, e: ControlEvent)
    requires Inv(s) && CanControl(s, e)
    ensures Inv(Controlled(s, e))
  {
    ControlScopes(s, e);
    ControlMail(s, e);
    ControlCounts(s, e);
    ControlWake(s, e);
    ControlClose(s, e);
    ControlQueue(s, e);
  }

  lemma UiInv(s: System, e: GuiEvent)
    requires Inv(s) && CanUi(s, e)
    ensures Inv(Shown(s, e))
  {
    UiMail(s, e);
    UiGui(s, e);
  }

  /** Every event of every thread keeps the invariant. */
  lemma StepInv(s: System, e: Event)
    requires Inv(s) && Enabled(s, e)
    ensures Inv(Apply(s, e))
  {
    match e {
      case Submit(x) => SubmitInv(s, x);
      case TaskStep(x) => TaskInv(s, x);
      case WorkerStep(x) => WorkInv(s, x);
      case Control(x) => ControlInv(s, x);
      case Ui(x) => UiInv(s, x);
    }
  }

  // ----- runs -----

  predicate IsRun(s: System, es: seq<Event>)
    decreases |es|
  {
    es == [] || (Enabled(s, es[0]) && IsRun(Apply(s, es[0]), es[1..]))
  }

  function Final(s: System, es: seq<Event>): System
    requires IsRun(s, es)
    decreases |es|
  {
    if es == [] then s else Final(Apply(s, es[0]), es[1..])
  }

  lemma {:induction false} RunInv(s: System, es: seq<Event>)
    requires Inv(s) && IsRun(s, es)
    ensures Inv(Final(s, es))
    decreases |es|
  {
    if es != [] {
      StepInv(s, es[0]);
      RunInv(Apply(s, es[0]), es[1..]);
    }
  }

  ghost predicate Reachable(t: System) {
    exists cap: nat, es: seq<Event> :: cap >= 1 && IsRun(Initial(cap), es) && Final(Initial(cap), es) == t
  }

  lemma ReachableInv(t: System)
    requires Reachable(t)
    ensures Inv(t)
  {
    var cap: nat, es: seq<Event> :| cap >= 1 && IsRun(Initial(cap), es) && Final(Initial(cap), es) == t;
    InitialInv(cap);
    RunInv(Initial(cap), es);
  }

  // ----- what holds in every reachable state -----

  /** No lost wake-up: a parked worker with work (or a shutdown) to notice has
      a token waiting, a submitter about to signal, or a closer about to; and
      a worker that has exited left nothing behind. */
  lemma NoLostWakeup(t: System)
    requires Reachable(t)
    ensures t.worker == Parked && (t.queue != [] || t.closed) ==> t.ready || Owed(t.ops) || t.closer.Closing?
    ensures t.worker == Exited ==> t.closed && t.queue == []
  {
    ReachableInv(t);
  }

  /** A scope names a cancel function exactly while it is loading; every other
      accepted operation has a stopped context or a body that is over. */
  lemma SingleLiveOperation(t: System, i: nat)
    requires Reachable(t) && i < |t.ops|
    ensures t.ops[i].scope < |t.scopes|
    ensures
      var o := t.ops[i];
      var core := t.scopes[o.scope].core;
      && (core.cancel.Some? <==> core.snapshot.state == Loading)
      && (core.cancel == Some(i) ==> core.snapshot.operation == o.id && !o.attempted)
      && (core.cancel == Some(i) || o.ctxErr != NoFailure || BodyOver(o.phase))
  {
    ReachableInv(t);
    assert OpOk(t.ops[i], i, t.scopes) && CellOk(t.scopes[t.ops[i].scope], t.ops[i].scope, t.ops);
  }

  /** Late returns are harmless: an operation its scope no longer names, be it
      superseded, cancelled, invalidated, closed or already finished, leaves
      every scope exactly as it was when it runs finish. */
  lemma LateReturnIgnored(t: System, i: nat)
    requires Reachable(t) && i < |t.ops| && t.ops[i].scope < |t.scopes|
    requires t.scopes[t.ops[i].scope].core.cancel != Some(i)
    requires CanTask(t, FinishSection(i))
    ensures Tasked(t, FinishSection(i)).scopes == t.scopes
    ensures Tasked(t, FinishSection(i)).outbox == t.outbox
  {
    ReachableInv(t);
    if Commits(t.scopes[t.ops[i].scope].core, t.ops[i].id) {
      CommitterIsCurrent(t.scopes, t.ops, i);
    }
  }

  /** Each scope's revisions are one life: at most one terminal snapshot per
      operation ID, directly after its loading snapshot. */
  lemma OneTerminalPerOperation(t: System, k: nat, a: nat, b: nat)
    requires Reachable(t) && k < |t.scopes| && a < b < |t.scopes[k].life|
    requires t.scopes[k].life[a].operation == t.scopes[k].life[b].operation
    ensures b == a + 1 && t.scopes[k].life[a].state == Loading && Terminal(t.scopes[k].life[b].state)
  {
    ReachableInv(t);
    assert CellOk(t.scopes[k], k, t.ops);
    CommitsAtMostOnce(t.scopes[k].life, a, b);
  }

  function ReadBodies(ops: seq<Op>): set<nat> {
    set i | 0 <= i < |ops| && ops[i].kind == Read && ops[i].phase == Body
  }

  lemma SubsetCard(a: set<nat>, b: set<nat>)
    requires a <= b
    ensures |a| <= |b|
  {
    if a != {} {
      var x :| x in a;
      SubsetCard(a - {x}, b - {x});
    }
  }

  lemma {:induction false} CapConstant(s: System, es: seq<Event>)
    requires IsRun(s, es)
    ensures Final(s, es).cap == s.cap
    decreases |es|
  {
    if es != [] {
      assert Apply(s, es[0]).cap == s.cap;
      CapConstant(Apply(s, es[0]), es[1..]);
    }
  }

  /** Read bodies never outnumber the configured limit, although a cancelled
      read runs its closure without a slot. */
  lemma ReadBound(cap: nat, es: seq<Event>)
    requires cap >= 1 && IsRun(Initial(cap), es)
    ensures |ReadBodies(Final(Initial(cap), es).ops)| <= cap
  {
    InitialInv(cap);
    RunInv(Initial(cap), es);
    CapConstant(Initial(cap), es);
    var t := Final(Initial(cap), es);
    forall i | i in ReadBodies(t.ops) ensures i in SlotHolders(t.ops) {
      assert OpOk(t.ops[i], i, t.scopes);
    }
    SubsetCard(ReadBodies(t.ops), SlotHolders(t.ops));
  }

  /** Mutations run one at a time in acceptance order, none is lost, none is
      repeated, and the wait group counts exactly the unfinished work. */
  lemma SerialMutations(t: System)
    requires Reachable(t)
    ensures t.accepted == t.finished + RunningNow(t.worker) + t.queue
    ensures forall a, b | 0 <= a < b < |t.accepted| :: t.accepted[a] != t.accepted[b]
    ensures t.wg == |t.queue| + |RunningNow(t.worker)| + |LiveReads(t.ops)|
  {
    ReachableInv(t);
  }

  lemma OneMutationBody(t: System, i: nat, j: nat)
    requires Reachable(t) && i < |t.ops| && j < |t.ops|
    requires t.ops[i].kind == t.ops[j].kind == Mutation && t.ops[i].phase == t.ops[j].phase == Body
    ensures i == j && t.worker == Running(i)
  {
    ReachableInv(t);
    assert OpQueueOk(t.ops[i], i, t.worker) && OpQueueOk(t.ops[j], j, t.worker);
  }

  /** The start gate: when a body runs, the deliver call that announced its
      loading state has already returned. */
  lemma LoadingAnnouncedFirst(t: System, i: nat)
    requires Reachable(t) && i < |t.ops|
    requires t.ops[i].phase == Body || (BodyOver(t.ops[i].phase) && t.ops[i].phase != Refused)
    ensures LoadingCallback(t.ops[i], i) in t.offered
  {
    ReachableInv(t);
    assert OpOk(t.ops[i], i, t.scopes) && OpMailOk(t.ops[i], i, t.outbox, t.offered);
  }

  /** What observers receive, whatever order the dispatcher chooses: real
      snapshots of their scope, in strictly increasing revision order, and
      never the loading state of an operation after its terminal state. */
  lemma ObserverTrace(t: System, a: nat, b: nat)
    requires Reachable(t) && a < b < |t.observed| && t.observed[a].scope == t.observed[b].scope
    ensures CallbackOk(t.observed[a], t.scopes) && CallbackOk(t.observed[b], t.scopes)
    ensures t.observed[a].revision < t.observed[b].revision
    ensures t.observed[a].snapshot.operation <= t.observed[b].snapshot.operation
    ensures t.observed[a].snapshot.operation == t.observed[b].snapshot.operation ==>
      t.observed[a].snapshot.state == Loading && Terminal(t.observed[b].snapshot.state)
  {
    ReachableInv(t);
    ObservedInLife(t, a);
    ObservedInLife(t, b);
    var life, x, y := t.scopes[t.observed[a].scope].life, t.observed[a].revision - 1, t.observed[b].revision - 1;
    LifeMonotone(life, x, y);
    if life[x].operation == life[y].operation {
      CommitsAtMostOnce(life, x, y);
    }
  }

  lemma ObservedInLife(t: System, a: nat)
    requires Inv(t) && a < |t.observed|
    ensures CallbackOk(t.observed[a], t.scopes) && Life(t.scopes[t.observed[a].scope].life)
  {
    assert CallbackOk(t.observed[a], t.scopes);
    assert CellOk(t.scopes[t.observed[a].scope], t.observed[a].scope, t.ops);
  }

  /** Once Close has returned every scope is closed, none is loading, and every
      operation ever started has a stopped context or a body that is over. */
  lemma ShutdownComplete(t: System)
    requires Reachable(t) && t.closer == ClosedDown
    ensures forall k | 0 <= k < |t.scopes| :: t.scopes[k].core.closed && t.scopes[k].core.snapshot.state != Loading
    ensures forall i | 0 <= i < |t.ops| :: Settled(t.ops[i])
  {
    ReachableInv(t);
    forall k | 0 <= k < |t.scopes|
      ensures t.scopes[k].core.closed && t.scopes[k].core.snapshot.state != Loading
    {
      assert CellOk(t.scopes[k], k, t.ops);
    }
    forall i | 0 <= i < |t.ops| ensures Settled(t.ops[i]) {
      assert OpOk(t.ops[i], i, t.scopes) && CellOk(t.scopes[t.ops[i].scope], t.ops[i].scope, t.ops);
    }
  }

  // ----- what a run does to the state it starts from -----

  predicate CellsOlder(a: seq<Cell>, b: seq<Cell>) {
    && Extends(a, b)
    && forall k | 0 <= k < |a| :: a[k].core.closed ==> b[k].core.closed
  }

  predicate Older(s: System, t: System) {
    && CellsOlder(s.scopes, t.scopes)
    && (s.closed ==> t.closed && t.accepted == s.accepted)
    && s.accepted <= t.accepted && s.finished <= t.finished && s.observed <= t.observed
  }

  lemma StepOlder(s: System, e: Event)
    requires Enabled(s, e)
    ensures Older(s, Apply(s, e))
  {
    match e {
      case Submit(x) => SubmitOlder(s, x);
      case TaskStep(x) => TaskOlder(s, x);
      case WorkerStep(x) => WorkOlder(s, x);
      case Control(x) => ControlOlder(s, x);
      case Ui(x) => UiOlder(s, x);
    }
  }

  lemma SubmitOlder(s: System, e: SubmitEvent)
    requires CanSubmit(s, e)
    ensures Older(s, Submitted(s, e))
  {
  }

  lemma TaskOlder(s: System, e: TaskEvent)
    requires CanTask(s, e)
    ensures Older(s, Tasked(s, e))
  {
  }

  lemma WorkOlder(s: System, e: WorkerEvent)
    requires CanWork(s, e)
    ensures Older(s, Worked(s, e))
  {
  }

  lemma UiOlder(s: System, e: GuiEvent)
    requires CanUi(s, e)
    ensures Older(s, Shown(s, e))
  {
  }

  lemma ControlOlder(s: System, e: ControlEvent)
    requires CanControl(s, e)
    ensures Older(s, Controlled(s, e))
  {
  }

  /** History is append-only: a committed snapshot is never rewritten, closed
      scopes stay closed, and a closed runner accepts nothing more. */
  lemma {:induction false} RunOlder(s: System, es: seq<Event>)
    requires IsRun(s, es)
    ensures Older(s, Final(s, es))
    decreases |es|
  {
    if es != [] {
      var m := Apply(s, es[0]);
      StepOlder(s, es[0]);
      RunOlder(m, es[1..]);
      var t := Final(m, es[1..]);
      forall k | 0 <= k < |s.scopes|
        ensures s.scopes[k].life <= t.scopes[k].life && (s.scopes[k].core.closed ==> t.scopes[k].core.closed)
      {
        assert s.scopes[k].life <= m.scopes[k].life <= t.scopes[k].life;
      }
    }
  }

  lemma {:induction false} RunAppend(s: System, es: seq<Event>, e: Event)
    requires IsRun(s, es) && Enabled(Final(s, es), e)
    ensures IsRun(s, es + [e]) && Final(s, es + [e]) == Apply(Final(s, es), e)
    decreases |es|
  {
    if es == [] {
      assert ([] + [e])[1..] == [];
    } else {
      RunAppend(Apply(s, es[0]), es[1..], e);
      assert (es + [e])[1..] == es[1..] + [e];
    }
  }

  lemma ReachableStep(s: System, e: Event)
    requires Reachable(s) && Enabled(s, e)
    ensures Reachable(Apply(s, e))
  {
    var cap: nat, es: seq<Event> :| cap >= 1 && IsRun(Initial(cap), es) && Final(Initial(cap), es) == s;
    RunAppend(Initial(cap), es, e);
  }
}
