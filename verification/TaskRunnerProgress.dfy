/** Accepted work always finishes: no reachable state is stuck, and background
    steps cannot go on for ever without new calls. */
module TaskRunnerProgress {
  import opened Wrappers
  import opened ScopeModel
  import opened TaskRunner
  import opened TaskRunnerInvariant
  import opened TaskRunnerScopes
  import opened TaskRunnerTheorems

  /** Steps the scheduler, its goroutines, callers already inside a start and a
      closer already inside Close take by themselves. Bodies are taken to
      return, so a body's return is one of them. */
  predicate Background(e: Event) {
    match e
    case Submit(x) => !x.NewScope? && !x.StartBegin?
    case TaskStep(x) => !x.Propagate?
    case WorkerStep(_) => true
    case Control(x) => x.CloserScope? || x.CloserSignal?
    case Ui(_) => false
  }

  /** All accepted work is done and a shutdown has been carried through. */
  predicate Quiet(s: System) {
    && s.wg == 0 && s.queue == [] && s.finished == s.accepted
    && (s.closed ==> s.worker == Exited && s.closer == ClosedDown)
  }

  lemma StarterProgress(s: System, k: nat) returns (e: Event)
    requires Inv(s) && k < |s.scopes| && s.scopes[k].lock.Some?
    ensures Background(e) && Enabled(s, e)
  {
    assert CellOk(s.scopes[k], k, s.ops);
    var o := s.ops[s.scopes[k].lock.value];
    if o.phase == Unscheduled {
      e := Submit(StartSchedule(k));
    } else if o.owes {
      e := Submit(StartSignal(k));
    } else {
      e := Submit(StartUnlock(k));
    }
  }

  lemma ActiveProgress(s: System, i: nat) returns (e: Event)
    requires Inv(s) && i < |s.ops| && Active(s.ops[i].phase)
    requires forall k | 0 <= k < |s.scopes| :: s.scopes[k].lock.None?
    ensures Background(e) && Enabled(s, e)
  {
    var o := s.ops[i];
    assert OpOk(o, i, s.scopes) && OpMailOk(o, i, s.outbox, s.offered) && OpQueueOk(o, i, s.worker);
    match o.phase {
      case AtGate =>
        if o.gate == Announcing { e := Submit(DispatchLoading(i)); }
        else if o.gate == Announced { e := Submit(OpenGate(i)); }
        else { e := TaskStep(PassGate(i)); }
      case Body => e := TaskStep(BodyReturns(i, Outcome(ZERO, NoFailure)));
      case Finishing(_) => e := TaskStep(FinishSection(i));
      case Delivering(cb) =>
        assert CallbackOk(cb, s.scopes);
        e := TaskStep(DispatchTerminal(i));
      case Returned =>
        if o.slot {
          assert i in SlotHolders(s.ops);
          e := TaskStep(ReleaseSlot(i));
        } else if o.kind == Read {
          assert i in LiveReads(s.ops);
          e := TaskStep(ReadDone(i));
        } else {
          e := WorkerStep(Complete);
        }
    }
  }

  lemma ReadProgress(s: System, i: nat) returns (e: Event)
    requires Inv(s) && i < |s.ops| && LiveRead(s.ops[i])
    requires forall k | 0 <= k < |s.scopes| :: s.scopes[k].lock.None?
    ensures Background(e) && Enabled(s, e)
  {
    assert OpOk(s.ops[i], i, s.scopes);
    if s.ops[i].phase != Waiting {
      e := ActiveProgress(s, i);
    } else if s.slots < s.cap {
      e := TaskStep(AcquireSlot(i));
    } else {
      var j :| j in SlotHolders(s.ops);
      assert OpOk(s.ops[j], j, s.scopes);
      e := ActiveProgress(s, j);
    }
  }

  lemma WakeProgress(s: System)
    requires Inv(s) && s.worker == Parked && (s.queue != [] || s.closed) && !s.closer.Closing?
    requires forall k | 0 <= k < |s.scopes| :: s.scopes[k].lock.None?
    ensures s.ready
  {
    forall i | 0 <= i < |s.ops| ensures !s.ops[i].owes {
      assert OpOk(s.ops[i], i, s.scopes);
    }
  }

  /** No deadlock: unless everything is done, some background step can be taken. */
  lemma Progress(s: System) returns (e: Event)
    requires Inv(s) && !Quiet(s)
    ensures Background(e) && Enabled(s, e)
  {
    if k :| 0 <= k < |s.scopes| && s.scopes[k].lock.Some? {
      e := StarterProgress(s, k);
    } else {
      e := UnlockedProgress(s);
    }
  }

  lemma UnlockedProgress(s: System) returns (e: Event)
    requires Inv(s) && !Quiet(s)
    requires forall k | 0 <= k < |s.scopes| :: s.scopes[k].lock.None?
    ensures Background(e) && Enabled(s, e)
  {
    if s.closer.Closing? {
      if k :| k in s.closer.todo { e := Control(CloserScope(k)); }
      else { e := Control(CloserSignal); }
    } else if s.worker == Draining {
      e := WorkerStep(Take);
    } else if s.worker.Running? {
      e := ActiveProgress(s, s.worker.op);
    } else if s.worker == Parked && (s.queue != [] || s.closed) {
      WakeProgress(s);
      e := WorkerStep(Wake);
    } else {
      assert LiveReads(s.ops) != {};
      var i :| i in LiveReads(s.ops);
      e := ReadProgress(s, i);
    }
  }

  // ----- a bound on background runs -----

  function PhaseRank(o: Op): nat {
    match o.phase
    case Unscheduled => 20
    case Refused => 0
    case Queued => 12
    case Waiting => 12
    case AtGate => 10
    case Body => 9
    case Finishing(_) => if o.attempted then 4 else 8
    case Delivering(_) => 6
    case Returned => 2
    case Gone => 0
  }

  function OpRank(o: Op): nat {
    PhaseRank(o) + (if o.slot then 1 else 0) + (if o.owes then 4 else 0)
    + (match o.gate case Held => 3 case Announcing => 2 case Announced => 1 case Open => 0)
  }

  function SumRank(ops: seq<Op>): nat {
    if ops == [] then 0 else SumRank(ops[..|ops|-1]) + OpRank(ops[|ops|-1])
  }

  function Rank(s: System): nat {
    SumRank(s.ops) + (if s.ready then 2 else 0)
    + (if s.worker == Draining || s.worker.Running? then 1 else 0)
    + (if s.closer.Closing? then |s.closer.todo| + 3 else 0)
  }

  lemma {:induction false} SumUpdate(ops: seq<Op>, i: nat, p: Op)
    requires i < |ops|
    ensures SumRank(ops[i := p]) == SumRank(ops) - OpRank(ops[i]) + OpRank(p)
    decreases |ops|
  {
    var n := |ops| - 1;
    if i == n {
      assert ops[i := p][..n] == ops[..n];
    } else {
      SumUpdate(ops[..n], i, p);
      assert ops[i := p][..n] == ops[..n][i := p];
    }
  }

  lemma CancelRank(ops: seq<Op>, c: Option<nat>)
    ensures SumRank(CancelCtx(ops, c)) == SumRank(ops)
  {
    if c.Some? && c.value < |ops| {
      ContextRank(ops[c.value], Stop(ops[c.value]).ctxErr);
      SumUpdate(ops, c.value, Stop(ops[c.value]));
    }
  }

  lemma ContextRank(o: Op, err: Failure)
    ensures OpRank(o.(ctxErr := err)) == OpRank(o)
  {
  }

  /** One operation moves and everything else Rank weighs is as before. */
  lemma MoveRank(s: System, t: System, i: nat, p: Op)
    requires i < |s.ops| && t.ops == s.ops[i := p]
    requires t.worker == s.worker && t.closer == s.closer
    requires OpRank(p) + (if t.ready then 2 else 0) < OpRank(s.ops[i]) + (if s.ready then 2 else 0)
    ensures Rank(t) < Rank(s)
  {
    SumUpdate(s.ops, i, p);
  }

  lemma ScheduledRank(s: System, k: nat)
    requires CanSubmit(s, StartSchedule(k)) && ScopesOk(s.scopes, s.ops)
    ensures Rank(Scheduled(s, k)) < Rank(s)
  {
    var i := s.scopes[k].lock.value;
    assert OpOk(s.ops[i], i, s.scopes);
    MoveRank(s, Scheduled(s, k), i, Scheduled(s, k).ops[i]);
  }

  lemma SubmitRank(s: System, e: SubmitEvent)
    requires ScopesOk(s.scopes, s.ops) && CanSubmit(s, e) && Background(Submit(e))
    ensures Rank(Submitted(s, e)) < Rank(s)
  {
    match e {
      case StartSchedule(k) => ScheduledRank(s, k);
      case StartSignal(k) =>
        var i := s.scopes[k].lock.value;
        MoveRank(s, Submitted(s, e), i, s.ops[i].(owes := false));
      case StartUnlock(k) =>
        var i := s.scopes[k].lock.value;
        assert CellOk(s.scopes[k], k, s.ops);
        MoveRank(s, Submitted(s, e), i, s.ops[i].(gate := Announcing));
      case DispatchLoading(i) => MoveRank(s, Submitted(s, e), i, s.ops[i].(gate := Announced));
      case OpenGate(i) => MoveRank(s, Submitted(s, e), i, s.ops[i].(gate := Open));
    }
  }

  lemma FinishRank(s: System, i: nat)
    requires ScopesOk(s.scopes, s.ops) && CanTask(s, FinishSection(i))
    ensures Rank(Finished(s, i)) < Rank(s)
  {
    var o := s.ops[i];
    assert OpOk(o, i, s.scopes) && CellOk(s.scopes[o.scope], o.scope, s.ops);
    if Commits(s.scopes[o.scope].core, o.id) {
      CommitterIsCurrent(s.scopes, s.ops, i);
    }
    MoveRank(s, Finished(s, i), i, Finished(s, i).ops[i]);
  }

  lemma TaskRank(s: System, e: TaskEvent)
    requires ScopesOk(s.scopes, s.ops) && CanTask(s, e) && Background(TaskStep(e))
    ensures Rank(Tasked(s, e)) < Rank(s)
  {
    if e.FinishSection? {
      FinishRank(s, e.i);
    } else {
      TaskAdvances(s, e);
      assert OpOk(s.ops[e.i], e.i, s.scopes);
      StepsDown(s, e);
      MoveRank(s, Tasked(s, e), e.i, Tasked(s, e).ops[e.i]);
    }
  }

  lemma StepsDown(s: System, e: TaskEvent)
    requires CanTask(s, e) && OpShape(s.ops[e.i]) && !e.FinishSection? && !e.Propagate?
    ensures
      var t := Tasked(s, e);
      && |t.ops| == |s.ops| && OpRank(t.ops[e.i]) < OpRank(s.ops[e.i])
      && t.worker == s.worker && t.closer == s.closer && t.ready == s.ready
  {
  }

  lemma WorkRank(s: System, e: WorkerEvent)
    requires QueueOk(s.ops, s.queue, s.worker, s.accepted, s.finished) && CanWork(s, e)
    ensures Rank(Worked(s, e)) < Rank(s)
  {
    match e {
      case Wake =>
      case Take => if s.queue != [] { PhaseRankMoves(s.ops, s.queue[0], AtGate); }
      case Complete => PhaseRankMoves(s.ops, s.worker.op, Gone);
    }
  }

  lemma PhaseRankMoves(ops: seq<Op>, i: nat, p: Phase)
    requires i < |ops|
    requires (ops[i].phase == Queued && p == AtGate) || (ops[i].phase == Returned && p == Gone)
    ensures SumRank(ops[i := ops[i].(phase := p)]) + 2 <= SumRank(ops)
  {
    SumUpdate(ops, i, ops[i].(phase := p));
  }

  lemma CloserRank(s: System, e: ControlEvent)
    requires CanControl(s, e) && (e.CloserScope? || e.CloserSignal?)
    ensures Rank(Controlled(s, e)) < Rank(s)
  {
    if e.CloserScope? { CancelRank(s.ops, s.scopes[e.k].core.cancel); }
  }

  lemma StepRank(s: System, e: Event)
    requires Inv(s) && Enabled(s, e) && Background(e)
    ensures Rank(Apply(s, e)) < Rank(s)
  {
    match e {
      case Submit(x) => SubmitRank(s, x);
      case TaskStep(x) => TaskRank(s, x);
      case WorkerStep(x) => WorkRank(s, x);
      case Control(x) => CloserRank(s, x);
    }
  }

  // ----- whatever happens in between -----

  /** A new call into the scheduler. Everything else is a background step, or a
      cancellation, invalidation or close of a scope, the parent context, the
      spreading of a cancellation, or a step of the dispatcher. */
  predicate NewCall(e: Event) {
    match e
    case Submit(x) => x.NewScope? || x.StartBegin?
    case Control(x) => x.CloserBegin?
    case _ => false
  }

  lemma PropagateRank(s: System, i: nat)
    requires CanTask(s, Propagate(i))
    ensures Rank(Tasked(s, Propagate(i))) == Rank(s)
  {
    ContextRank(s.ops[i], s.root);
    SumUpdate(s.ops, i, s.ops[i].(ctxErr := s.root));
  }

  lemma ControlRank(s: System, e: ControlEvent)
    requires CanControl(s, e) && !e.CloserBegin? && !Background(Control(e))
    ensures Rank(Controlled(s, e)) == Rank(s)
  {
    if e.CancelScope? || e.InvalidateScope? || e.CloseScope? { CancelRank(s.ops, s.scopes[e.k].core.cancel); }
  }

  lemma UiRank(s: System, e: GuiEvent)
    requires CanUi(s, e)
    ensures Rank(Shown(s, e)) == Rank(s)
  {
  }

  /** Nothing but a new call makes more work. */
  lemma IdleRank(s: System, e: Event)
    requires Enabled(s, e) && !Background(e) && !NewCall(e)
    ensures Rank(Apply(s, e)) == Rank(s)
  {
    match e {
      case TaskStep(x) => PropagateRank(s, x.i);
      case Control(x) => ControlRank(s, x);
      case Ui(x) => UiRank(s, x);
    }
  }

  lemma StepWork(s: System, e: Event)
    requires Inv(s) && Enabled(s, e) && !NewCall(e)
    ensures Rank(Apply(s, e)) + (if Background(e) then 1 else 0) <= Rank(s)
  {
    if Background(e) { StepRank(s, e); } else { IdleRank(s, e); }
  }

  predicate NoNewCalls(es: seq<Event>) {
    forall j | 0 <= j < |es| :: !NewCall(es[j])
  }

  function BackgroundSteps(es: seq<Event>): nat {
    if es == [] then 0 else (if Background(es[0]) then 1 else 0) + BackgroundSteps(es[1..])
  }

  /** Until the next new call at most Rank(s) background steps are taken,
      whatever else is interleaved with them. */
  lemma {:induction false} BackgroundStepsEnd(s: System, es: seq<Event>)
    requires Inv(s) && IsRun(s, es) && NoNewCalls(es)
    ensures BackgroundSteps(es) + Rank(Final(s, es)) <= Rank(s)
    decreases |es|
  {
    if es != [] {
      StepInv(s, es[0]);
      StepWork(s, es[0]);
      BackgroundStepsEnd(Apply(s, es[0]), es[1..]);
    }
  }

  /** Wait cannot hang: from any reachable state, a run without new calls takes at
      most Rank(s) background steps, and when none is left to take it has
      finished every accepted operation (and, after Close, ended the worker). */
  lemma WaitTerminates(s: System, es: seq<Event>)
    requires Reachable(s) && IsRun(s, es) && NoNewCalls(es)
    ensures BackgroundSteps(es) <= Rank(s)
    ensures (forall e | Background(e) :: !Enabled(Final(s, es), e)) ==> Quiet(Final(s, es))
  {
    ReachableInv(s);
    BackgroundStepsEnd(s, es);
    RunInv(s, es);
    var t := Final(s, es);
    if !Quiet(t) {
      var e := Progress(t);
    }
  }
}
