/** What each call and each step of the scheduler achieves, spelled out over the
    snapshots, contexts and callbacks that a caller can see. */
module TaskRunnerEffects {
  import opened Wrappers
  import opened ScopeModel
  import opened TaskRunner
  import opened TaskRunnerInvariant
  import opened TaskRunnerTheorems
  import opened TaskRunnerClosing

  lemma ScopeOf(s: System, k: nat)
    requires Reachable(s) && k < |s.scopes|
    ensures CellOk(s.scopes[k], k, s.ops)
  {
    ReachableInv(s);
  }

  lemma OperationOf(s: System, i: nat)
    requires Reachable(s) && i < |s.ops|
    ensures OpOk(s.ops[i], i, s.scopes)
  {
    ReachableInv(s);
  }

  // ----- starting -----

  predicate OthersKept(s: System, t: System, k: nat, i: nat) {
    && |t.scopes| == |s.scopes| && |s.ops| <= |t.ops|
    && (forall m | 0 <= m < |s.scopes| && m != k :: t.scopes[m] == s.scopes[m])
    && (forall j | 0 <= j < |s.ops| && j != i :: t.ops[j] == s.ops[j])
  }

  /** The operation a scope's cancel function names; no operation has the other number. */
  function Named(s: System, k: nat): nat
    requires k < |s.scopes|
  {
    if s.scopes[k].core.cancel.Some? then s.scopes[k].core.cancel.value else |s.ops|
  }

  /** A start is refused exactly by a closed scope, or, when it is exclusive, while
      a mutation of the scope is loading; then nothing at all changes. */
  lemma StartRefused(s: System, k: nat, kind: OperationClass, exclusive: bool)
    requires Reachable(s) && CanSubmit(s, StartBegin(k, kind, exclusive))
    ensures
      var snapshot := s.scopes[k].core.snapshot;
      Submitted(s, StartBegin(k, kind, exclusive)) == s
      <==> s.scopes[k].core.closed || (exclusive && snapshot.state == Loading && snapshot.kind == Mutation)
  {
  }

  /** Otherwise a new operation with the next ID is the scope's loading one, and the
      operation it replaces has a stopped context. */
  lemma StartTakesOver(s: System, k: nat, kind: OperationClass, exclusive: bool)
    requires Reachable(s) && CanSubmit(s, StartBegin(k, kind, exclusive))
    requires Submitted(s, StartBegin(k, kind, exclusive)) != s
    ensures
      var t, i, id := Submitted(s, StartBegin(k, kind, exclusive)), |s.ops|, s.scopes[k].core.snapshot.operation + 1;
      && |t.ops| == i + 1 && OthersKept(s, t, k, Named(s, k))
      && t.ops[i].scope == k && t.ops[i].id == id && t.ops[i].kind == kind && t.ops[i].phase == Unscheduled
      && t.ops[i].ctxErr == s.root
      && t.scopes[k].life == s.scopes[k].life + [Snapshot(id, kind, Loading, 0, NoFailure)]
      && t.scopes[k].core.cancel == Some(i) && !t.scopes[k].core.closed
      && (Named(s, k) < i ==> t.ops[Named(s, k)].ctxErr != NoFailure)
  {
    ScopeOf(s, k);
  }

  /** An open runner accepts every operation: a mutation at the end of the queue,
      a read waiting for a slot. */
  lemma ScheduleAccepts(s: System, k: nat)
    requires Reachable(s) && CanSubmit(s, StartSchedule(k)) && !s.closed
    ensures
      var t, i := Submitted(s, StartSchedule(k)), s.scopes[k].lock.value;
      && t.wg == s.wg + 1 && t.scopes == s.scopes && |t.ops| == |s.ops|
      && (s.ops[i].kind == Mutation ==> t.ops[i].phase == Queued && t.queue == s.queue + [i])
      && (s.ops[i].kind == Read ==> t.ops[i].phase == Waiting && t.queue == s.queue)
      && t.ops[i].ctxErr == s.ops[i].ctxErr
  {
    OperationOf(s, s.scopes[k].lock.value);
  }

  /** A closed one refuses it, and the scope is closed with the operation cancelled. */
  lemma ScheduleRefuses(s: System, k: nat)
    requires Reachable(s) && CanSubmit(s, StartSchedule(k)) && s.closed
    ensures
      var t, i := Submitted(s, StartSchedule(k)), s.scopes[k].lock.value;
      && t.wg == s.wg && t.queue == s.queue && |t.ops| == |s.ops| && |t.scopes| == |s.scopes|
      && t.ops[i].phase == Refused && t.ops[i].ctxErr != NoFailure
      && t.scopes[k].core.closed && t.scopes[k].core.cancel.None? && t.scopes[k].lock.None?
      && t.scopes[k].core.snapshot.operation == s.ops[i].id
      && t.scopes[k].core.snapshot.state == Cancelled && t.scopes[k].core.snapshot.err == Canceled
  {
    ScopeOf(s, k);
  }

  // ----- running and finishing -----

  /** A task's body runs unless its context stopped before the gate let it through;
      then the operation finishes with the zero value and the context's error. */
  lemma GateLetsThrough(s: System, i: nat)
    requires CanTask(s, PassGate(i))
    ensures
      var t := Tasked(s, PassGate(i));
      && |t.ops| == |s.ops|
      && t.ops[i].phase == if s.ops[i].ctxErr == NoFailure then Body else Finishing(Outcome(0, s.ops[i].ctxErr))
  {
  }

  /** The mutation taken from the queue is its first one. */
  lemma TakeRunsFirst(s: System)
    requires Reachable(s) && CanWork(s, Take) && s.queue != []
    ensures
      var t := Worked(s, Take);
      && t.worker == Running(s.queue[0]) && s.queue == [s.queue[0]] + t.queue
      && |t.ops| == |s.ops| && s.queue[0] < |t.ops| && t.ops[s.queue[0]].phase == AtGate
  {
  }

  /** The terminal snapshot of an operation whose task returned out: its value,
      success without an error and with a live context, error with an error of its
      own, and cancelled otherwise, with the context's error if it has none. */
  function Result(o: Op, out: Outcome): Snapshot {
    Snapshot(o.id, o.kind,
             if o.ctxErr == NoFailure && out.err == NoFailure then Success
             else if o.ctxErr == NoFailure && out.err.TaskError? then Error
             else Cancelled,
             out.value, if out.err == NoFailure then o.ctxErr else out.err)
  }

  /** Operation i has published a snapshot as the last one of its scope and is
      about to deliver it. */
  predicate Publishes(s: System, t: System, i: nat, published: Snapshot)
    requires i < |s.ops| && s.ops[i].scope < |s.scopes|
  {
    var k := s.ops[i].scope;
    && OthersKept(s, t, k, i) && |t.ops| == |s.ops|
    && t.scopes[k].life == s.scopes[k].life + [published]
    && t.scopes[k].core.snapshot == published && t.scopes[k].core.cancel.None?
    && t.ops[i].phase.Delivering? && t.ops[i].phase.cb in t.outbox
    && t.ops[i].phase.cb.scope == k && t.ops[i].phase.cb.snapshot == published
    && t.ops[i].phase.cb.revision == |t.scopes[k].life|
  }

  /** The operation a scope is loading publishes what its task returned. */
  lemma FinishPublishes(s: System, i: nat, out: Outcome)
    requires Reachable(s) && CanTask(s, FinishSection(i)) && s.ops[i].phase == Finishing(out)
    requires s.scopes[s.ops[i].scope].core.cancel == Some(i)
    ensures Publishes(s, Tasked(s, FinishSection(i)), i, Result(s.ops[i], out))
  {
    var k := s.ops[i].scope;
    ScopeOf(s, k);
    OperationOf(s, i);
    CurrentLoads(s.scopes[k], s.ops[i]);
    FinishCommits(s, i, out);
  }

  lemma FinishCommits(s: System, i: nat, out: Outcome)
    requires CanTask(s, FinishSection(i)) && s.ops[i].phase == Finishing(out)
    requires
      var cell := s.scopes[s.ops[i].scope];
      && !cell.core.closed && cell.core.snapshot == LoadingSnapshot(s.ops[i]) && |cell.life| == cell.core.revision
    ensures Publishes(s, Tasked(s, FinishSection(i)), i, Result(s.ops[i], out))
  {
  }

  /** The current snapshot of a scope that is loading an operation is that operation's. */
  lemma CurrentLoads(cell: Cell, o: Op)
    requires CoreOk(cell.core) && Life(cell.life) && |cell.life| == cell.core.revision
    requires cell.life[cell.core.revision - 1] == cell.core.snapshot && cell.core.snapshot.state == Loading
    requires 1 <= o.revision <= |cell.life| && cell.life[o.revision - 1] == LoadingSnapshot(o)
    requires cell.core.snapshot.operation == o.id
    ensures cell.core.snapshot == LoadingSnapshot(o)
  {
    if o.revision < cell.core.revision { CommitsAtMostOnce(cell.life, o.revision - 1, cell.core.revision - 1); }
  }

  // ----- cancelling, invalidating and closing -----

  lemma ReplaceStops(s: System, k: nat, c: Core)
    requires k < |s.scopes| && CellOk(s.scopes[k], k, s.ops)
    ensures
      var t := Replace(s, k, c);
      && OthersKept(s, t, k, Named(s, k)) && |t.ops| == |s.ops| && t.outbox == s.outbox
      && (Named(s, k) < |s.ops| ==> t.ops[Named(s, k)].ctxErr != NoFailure)
      && (s.scopes[k].core.snapshot.state == Loading ==> Named(s, k) < |s.ops|)
      && t.scopes[k].core == c
      && (c.revision > s.scopes[k].core.revision ==> t.scopes[k].life == s.scopes[k].life + [c.snapshot])
  {
  }

  /** Cancel stops the loading operation, publishes it as cancelled at once, and
      posts that for the observer; on a scope that is not loading it does nothing. */
  lemma CancelStops(s: System, k: nat)
    requires Reachable(s) && CanControl(s, CancelScope(k))
    ensures
      var t, snapshot := Controlled(s, CancelScope(k)), s.scopes[k].core.snapshot;
      if snapshot.state == Loading && !s.scopes[k].core.closed then
        var published := snapshot.(state := Cancelled, err := Canceled);
        && OthersKept(s, t, k, Named(s, k)) && Named(s, k) < |t.ops| == |s.ops|
        && t.ops[Named(s, k)].ctxErr != NoFailure
        && t.scopes[k].life == s.scopes[k].life + [published] && t.scopes[k].core.snapshot == published
        && t.scopes[k].core.cancel.None? && !t.scopes[k].core.closed
        && t.outbox == s.outbox + {Callback(k, |t.scopes[k].life|, published, Caller)}
      else t == s
  {
    ScopeOf(s, k);
    ReplaceStops(s, k, Cancel(s.scopes[k].core));
  }

  /** Invalidate stops it too and leaves a fresh idle generation, without a delivery. */
  lemma InvalidateStops(s: System, k: nat)
    requires Reachable(s) && CanControl(s, InvalidateScope(k))
    ensures
      var t, core := Controlled(s, InvalidateScope(k)), s.scopes[k].core;
      if core.closed then t == s
      else
        var idle := Snapshot(core.snapshot.operation + 1, NoClass, Idle, 0, NoFailure);
        && OthersKept(s, t, k, Named(s, k)) && |t.ops| == |s.ops| && t.outbox == s.outbox
        && (Named(s, k) < |s.ops| ==> t.ops[Named(s, k)].ctxErr != NoFailure)
        && t.scopes[k].life == s.scopes[k].life + [idle] && t.scopes[k].core.snapshot == idle
        && t.scopes[k].core.cancel.None? && !t.scopes[k].core.closed
  {
    ScopeOf(s, k);
    var core := s.scopes[k].core;
    ReplaceStops(s, k, Invalidate(core));
    if !core.closed {
      assert Controlled(s, InvalidateScope(k)) == Replace(s, k, Invalidate(core));
    }
  }

  /** Close stops it and closes the scope for good, without a delivery; the last
      snapshot changes only if it was loading. */
  lemma CloseStops(s: System, k: nat)
    requires Reachable(s) && CanControl(s, CloseScope(k))
    ensures
      var t, core := Controlled(s, CloseScope(k)), s.scopes[k].core;
      if core.closed then t == s
      else
        && OthersKept(s, t, k, Named(s, k)) && |t.ops| == |s.ops| && t.outbox == s.outbox
        && (Named(s, k) < |s.ops| ==> t.ops[Named(s, k)].ctxErr != NoFailure)
        && t.scopes[k].core.closed && t.scopes[k].core.cancel.None?
        && t.scopes[k].core.snapshot ==
             (if core.snapshot.state == Loading then core.snapshot.(state := Cancelled, err := Canceled) else core.snapshot)
  {
    ScopeOf(s, k);
    ReplaceStops(s, k, Close(s.scopes[k].core));
  }

  // ----- delivering -----

  /** A deliver call hands the callback to the dispatcher if the scope is watched,
      whoever makes it; it reaches the observer in no other way. */
  lemma DeliveryReachesDispatcher(s: System, cb: Callback)
    requires cb.scope < |s.scopes|
    ensures
      var handed := if s.scopes[cb.scope].watched then s.pending + {cb} else s.pending;
      && (CanUi(s, Dispatch(cb)) ==> Shown(s, Dispatch(cb)).pending == handed)
      && (forall i: nat | CanSubmit(s, DispatchLoading(i)) && cb == LoadingCallback(s.ops[i], i) ::
            Submitted(s, DispatchLoading(i)).pending == handed)
      && (forall i: nat | CanTask(s, DispatchTerminal(i)) && s.ops[i].phase == Delivering(cb) ::
            Tasked(s, DispatchTerminal(i)).pending == handed)
  {
  }

  /** A pending callback that is still current reaches its observer if the
      dispatcher runs it. */
  lemma CurrentIsObserved(s: System, cb: Callback) returns (es: seq<Event>)
    requires Reachable(s) && !s.closed && s.gui == GuiIdle && cb in s.pending && cb.scope < |s.scopes|
    requires !s.scopes[cb.scope].core.closed && s.scopes[cb.scope].core.revision == cb.revision
    ensures IsRun(s, es) && Final(s, es).observed == s.observed + [cb]
  {
    var m := Apply(s, Ui(GuiTake(cb)));
    ReachableStep(s, Ui(GuiTake(cb)));
    ReachableInv(m);
    var rest := CheckAndCall(m, cb);
    es := [Ui(GuiTake(cb))] + rest;
    assert es[1..] == rest;
  }

  lemma CheckAndCall(m: System, cb: Callback) returns (es: seq<Event>)
    requires Inv(m) && m.gui == Taken(cb) && StillCurrent(m)
    ensures IsRun(m, es) && Final(m, es).observed == m.observed + [cb]
  {
    CurrentIsUnlocked(m);
    var u := Apply(m, Ui(GuiCheck));
    CallRun(u);
    es := [Ui(GuiCheck)] + [Ui(GuiCall)];
    assert es[1..] == [Ui(GuiCall)];
  }

  /** A callback that has become stale is dropped. */
  lemma StaleIsDropped(s: System)
    requires CanUi(s, GuiCheck)
    requires
      var core := s.scopes[s.gui.cb.scope].core;
      core.closed || core.revision != s.gui.cb.revision
    ensures Shown(s, GuiCheck).gui == GuiIdle && Shown(s, GuiCheck).observed == s.observed
  {
  }
}
