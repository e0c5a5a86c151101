/** Every event keeps the parts of the invariant about scopes and operations. */
module TaskRunnerScopes {
  import opened Wrappers
  import opened ScopeModel
  import opened TaskRunner
  import opened TaskRunnerInvariant

  /** A step of one operation that leaves every scope alone. */
  predicate Advances(o: Op, p: Op, current: bool) {
    && p.scope == o.scope && p.id == o.id && p.kind == o.kind && p.revision == o.revision
    && OpShape(p)
    && (Settled(o) ==> Settled(p))
    && (p.gate == Held <==> o.gate == Held)
    && (p.attempted && !o.attempted ==> !current)
    && (p.phase == Refused <==> o.phase == Refused)
  }

  lemma AdvanceKeeps(scopes: seq<Cell>, ops: seq<Op>, i: nat, p: Op)
    requires ScopesOk(scopes, ops) && i < |ops|
    requires Advances(ops[i], p, scopes[ops[i].scope].core.cancel == Some(i))
    ensures ScopesOk(scopes, ops[i := p])
  {
    var after := ops[i := p];
    forall k | 0 <= k < |scopes| ensures CellOk(scopes[k], k, after) {
      assert CellOk(scopes[k], k, ops);
    }
    forall j | 0 <= j < |after| ensures OpOk(after[j], j, scopes) {
      assert OpOk(ops[j], j, scopes);
    }
  }

  /** A scope's fields move on without naming a new operation. */
  predicate Detaches(cell: Cell, c: Core) {
    && CoreOk(c) && c.cancel.None? && c.nextID >= cell.core.nextID
    && (c.closed || !cell.core.closed || c == cell.core)
    && (|| (c.revision == cell.core.revision + 1 && Follows(cell.core.snapshot, c.snapshot))
        || (c.revision == cell.core.revision && c.snapshot == cell.core.snapshot))
  }

  lemma DetachKeeps(scopes: seq<Cell>, ops: seq<Op>, k: nat, c: Core)
    requires ScopesOk(scopes, ops) && k < |scopes|
    requires Detaches(scopes[k], c) && scopes[k].lock.None?
    requires scopes[k].core.cancel.Some? ==> Settled(ops[scopes[k].core.cancel.value])
    ensures ScopesOk(scopes[k := Push(scopes[k], c)], ops)
  {
    var after := scopes[k := Push(scopes[k], c)];
    assert CellOk(scopes[k], k, ops);
    forall m | 0 <= m < |after| ensures CellOk(after[m], m, ops) {
      assert CellOk(scopes[m], m, ops);
    }
    forall j | 0 <= j < |ops| ensures OpOk(ops[j], j, after) {
      assert OpOk(ops[j], j, scopes);
    }
  }

  /** Cancelling the context a scope names keeps everything and settles it. */
  lemma CancelCtxKeeps(scopes: seq<Cell>, ops: seq<Op>, k: nat)
    requires ScopesOk(scopes, ops) && k < |scopes|
    ensures
      var c := scopes[k].core.cancel;
      && ScopesOk(scopes, CancelCtx(ops, c))
      && (c.Some? ==> Settled(CancelCtx(ops, c)[c.value]))
  {
    assert CellOk(scopes[k], k, ops);
    var c := scopes[k].core.cancel;
    if c.Some? {
      assert OpOk(ops[c.value], c.value, scopes);
      AdvanceKeeps(scopes, ops, c.value, Stop(ops[c.value]));
    }
  }

  lemma BeginKeeps(scopes: seq<Cell>, ops: seq<Op>, k: nat, o: Op)
    requires ScopesOk(scopes, ops) && k < |scopes|
    requires scopes[k].lock.None? && !scopes[k].core.closed
    requires scopes[k].core.cancel.Some? ==> Settled(ops[scopes[k].core.cancel.value])
    requires o.kind != NoClass && o.scope == k && o.phase == Unscheduled && o.gate == Held
    requires !o.slot && !o.owes && !o.attempted
    requires o.id == scopes[k].core.nextID + 1 && o.revision == scopes[k].core.revision + 1
    ensures
      ScopesOk(scopes[k := Push(scopes[k], Begin(scopes[k].core, |ops|, o.kind)).(lock := Some(|ops|))], ops + [o])
  {
    var cell := Push(scopes[k], Begin(scopes[k].core, |ops|, o.kind)).(lock := Some(|ops|));
    var after, longer := scopes[k := cell], ops + [o];
    assert CellOk(scopes[k], k, ops);
    forall m | 0 <= m < |after| ensures CellOk(after[m], m, longer) {
      assert CellOk(scopes[m], m, ops);
    }
    forall j | 0 <= j < |longer| ensures OpOk(longer[j], j, after) {
      if j < |ops| { assert OpOk(ops[j], j, scopes); }
    }
  }

  lemma UnlockKeeps(scopes: seq<Cell>, ops: seq<Op>, k: nat)
    requires ScopesOk(scopes, ops) && k < |scopes| && scopes[k].lock.Some? && scopes[k].lock.value < |ops|
    requires var o := ops[scopes[k].lock.value]; !o.owes && o.phase != Unscheduled
    ensures
      var i := scopes[k].lock.value;
      ScopesOk(scopes[k := scopes[k].(lock := None)], ops[i := ops[i].(gate := Announcing)])
  {
    var i := scopes[k].lock.value;
    var after, ops' := scopes[k := scopes[k].(lock := None)], ops[i := ops[i].(gate := Announcing)];
    assert CellOk(scopes[k], k, ops) && OpOk(ops[i], i, scopes);
    forall m | 0 <= m < |after| ensures CellOk(after[m], m, ops') {
      assert CellOk(scopes[m], m, ops);
    }
    forall j | 0 <= j < |ops'| ensures OpOk(ops'[j], j, after) {
      assert OpOk(ops[j], j, scopes);
    }
  }

  lemma RefuseKeeps(scopes: seq<Cell>, ops: seq<Op>, k: nat)
    requires ScopesOk(scopes, ops) && k < |scopes| && scopes[k].lock.Some? && scopes[k].lock.value < |ops|
    requires ops[scopes[k].lock.value].phase == Unscheduled
    ensures
      var i := scopes[k].lock.value;
      ScopesOk(scopes[k := Push(scopes[k], Reject(scopes[k].core)).(lock := None)],
               ops[i := Stop(ops[i]).(phase := Refused)])
  {
    var i := scopes[k].lock.value;
    var cell := Push(scopes[k], Reject(scopes[k].core)).(lock := None);
    var after, ops' := scopes[k := cell], ops[i := Stop(ops[i]).(phase := Refused)];
    assert CellOk(scopes[k], k, ops) && OpOk(ops[i], i, scopes);
    RefusedCell(scopes[k], k, ops, ops');
    forall m | 0 <= m < |after| ensures CellOk(after[m], m, ops') {
      assert CellOk(scopes[m], m, ops);
    }
    forall j | 0 <= j < |ops'| ensures OpOk(ops'[j], j, after) {
      assert OpOk(ops[j], j, scopes);
    }
  }

  lemma RefusedCell(cell: Cell, k: nat, ops: seq<Op>, ops': seq<Op>)
    requires CellOk(cell, k, ops) && cell.lock.Some?
    ensures CellOk(Push(cell, Reject(cell.core)).(lock := None), k, ops')
  {
    assert Follows(cell.core.snapshot, Reject(cell.core).snapshot);
  }

  lemma ReplaceKeeps(s: System, k: nat, c: Core)
    requires ScopesOk(s.scopes, s.ops) && k < |s.scopes|
    requires s.scopes[k].lock.None? && Detaches(s.scopes[k], c)
    ensures ScopesOk(Replace(s, k, c).scopes, Replace(s, k, c).ops)
  {
    CancelCtxKeeps(s.scopes, s.ops, k);
    DetachKeeps(s.scopes, CancelCtx(s.ops, s.scopes[k].core.cancel), k, c);
  }

  /** The operation a scope commits is the one its cancel function names. */
  lemma CommitterIsCurrent(scopes: seq<Cell>, ops: seq<Op>, i: nat)
    requires ScopesOk(scopes, ops) && i < |ops|
    requires Commits(scopes[ops[i].scope].core, ops[i].id)
    ensures scopes[ops[i].scope].core.cancel == Some(i)
  {
    var k := ops[i].scope;
    assert CellOk(scopes[k], k, ops);
    var c := scopes[k].core.cancel.value;
  }

  lemma FinishKeeps(s: System, i: nat)
    requires ScopesOk(s.scopes, s.ops) && CanTask(s, FinishSection(i))
    ensures ScopesOk(Finished(s, i).scopes, Finished(s, i).ops)
  {
    var o := s.ops[i];
    var k := o.scope;
    assert CellOk(s.scopes[k], k, s.ops) && OpOk(o, i, s.scopes);
    var core := s.scopes[k].core;
    if !Commits(core, o.id) {
      AdvanceKeeps(s.scopes, s.ops, i, o.(attempted := true, phase := Returned));
    } else {
      CommitterIsCurrent(s.scopes, s.ops, i);
      var c := Finish(core, o.id, o.ctxErr, o.phase.out);
      DetachKeeps(s.scopes, s.ops, k, c);
      AdvanceKeeps(s.scopes[k := Push(s.scopes[k], c)], s.ops, i, Finished(s, i).ops[i]);
    }
  }

  lemma NewScopeKeeps(s: System, watched: bool)
    requires ScopesOk(s.scopes, s.ops)
    ensures ScopesOk(Submitted(s, NewScope(watched)).scopes, s.ops)
  {
    var t := Submitted(s, NewScope(watched));
    forall k | 0 <= k < |t.scopes| ensures CellOk(t.scopes[k], k, t.ops) {
      if k < |s.scopes| { assert CellOk(s.scopes[k], k, s.ops); }
    }
    forall j | 0 <= j < |t.ops| ensures OpOk(t.ops[j], j, t.scopes) {
      assert OpOk(s.ops[j], j, s.scopes);
    }
  }

  lemma BegunKeeps(s: System, k: nat, kind: OperationClass, exclusive: bool)
    requires ScopesOk(s.scopes, s.ops) && CanSubmit(s, StartBegin(k, kind, exclusive))
    ensures ScopesOk(Begun(s, k, kind, exclusive).scopes, Begun(s, k, kind, exclusive).ops)
  {
    var core := s.scopes[k].core;
    if !core.closed && !Busy(core, exclusive) {
      assert CellOk(s.scopes[k], k, s.ops);
      CancelCtxKeeps(s.scopes, s.ops, k);
      BeginKeeps(s.scopes, CancelCtx(s.ops, core.cancel), k, Begun(s, k, kind, exclusive).ops[|s.ops|]);
    }
  }

  lemma ScheduledKeeps(s: System, k: nat)
    requires ScopesOk(s.scopes, s.ops) && CanSubmit(s, StartSchedule(k))
    ensures ScopesOk(Scheduled(s, k).scopes, Scheduled(s, k).ops)
  {
    var i := s.scopes[k].lock.value;
    assert CellOk(s.scopes[k], k, s.ops) && OpOk(s.ops[i], i, s.scopes);
    if s.closed { RefuseKeeps(s.scopes, s.ops, k); }
    else { AdvanceKeeps(s.scopes, s.ops, i, Scheduled(s, k).ops[i]); }
  }

  lemma ReplacingKeeps(s: System, k: nat)
    requires ScopesOk(s.scopes, s.ops) && Unlocked(s, k)
    ensures ScopesOk(Cancelling(s, k).scopes, Cancelling(s, k).ops)
    ensures ScopesOk(ClosingScope(s, k).scopes, ClosingScope(s, k).ops)
    ensures !s.scopes[k].core.closed ==>
      var t := Replace(s, k, Invalidate(s.scopes[k].core)); ScopesOk(t.scopes, t.ops)
  {
    var core := s.scopes[k].core;
    assert CellOk(s.scopes[k], k, s.ops);
    if Cancellable(core) { ReplaceKeeps(s, k, Cancel(core)); }
    if !core.closed {
      ReplaceKeeps(s, k, Invalidate(core));
      ReplaceKeeps(s, k, Close(core));
    }
  }

  lemma SubmitScopes(s: System, e: SubmitEvent)
    requires ScopesOk(s.scopes, s.ops) && CanSubmit(s, e)
    ensures ScopesOk(Submitted(s, e).scopes, Submitted(s, e).ops)
  {
    match e {
      case NewScope(watched) => NewScopeKeeps(s, watched);
      case StartBegin(k, kind, exclusive) => BegunKeeps(s, k, kind, exclusive);
      case StartSchedule(k) => ScheduledKeeps(s, k);
      case StartSignal(k) =>
        var i := s.scopes[k].lock.value;
        assert OpOk(s.ops[i], i, s.scopes);
        AdvanceKeeps(s.scopes, s.ops, i, Submitted(s, e).ops[i]);
      case StartUnlock(k) => UnlockKeeps(s.scopes, s.ops, k);
      case DispatchLoading(i) =>
        assert OpOk(s.ops[i], i, s.scopes);
        AdvanceKeeps(s.scopes, s.ops, i, Submitted(s, e).ops[i]);
      case OpenGate(i) =>
        assert OpOk(s.ops[i], i, s.scopes);
        AdvanceKeeps(s.scopes, s.ops, i, Submitted(s, e).ops[i]);
    }
  }

  /** A task event other than finish leaves all scopes alone. */
  lemma TaskAdvances(s: System, e: TaskEvent)
    requires ScopesOk(s.scopes, s.ops) && CanTask(s, e) && !e.FinishSection?
    ensures Tasked(s, e).scopes == s.scopes
    ensures |Tasked(s, e).ops| == |s.ops| && Tasked(s, e).ops == s.ops[e.i := Tasked(s, e).ops[e.i]]
    ensures Advances(s.ops[e.i], Tasked(s, e).ops[e.i], s.scopes[s.ops[e.i].scope].core.cancel == Some(e.i))
  {
    assert OpOk(s.ops[e.i], e.i, s.scopes);
    if e.Propagate? || e.AcquireSlot? || e.SkipSlot? || e.PassGate? || e.BodyReturns? { TaskGoesOn(s, e); }
    else { TaskWindsDown(s, e); }
  }

  lemma TaskGoesOn(s: System, e: TaskEvent)
    requires CanTask(s, e) && OpOk(s.ops[e.i], e.i, s.scopes)
    requires e.Propagate? || e.AcquireSlot? || e.SkipSlot? || e.PassGate? || e.BodyReturns?
    ensures Tasked(s, e).scopes == s.scopes
    ensures |Tasked(s, e).ops| == |s.ops| && Tasked(s, e).ops == s.ops[e.i := Tasked(s, e).ops[e.i]]
    ensures Advances(s.ops[e.i], Tasked(s, e).ops[e.i], s.scopes[s.ops[e.i].scope].core.cancel == Some(e.i))
  {
  }

  lemma TaskWindsDown(s: System, e: TaskEvent)
    requires CanTask(s, e) && OpOk(s.ops[e.i], e.i, s.scopes)
    requires e.DispatchTerminal? || e.DispatchPanics? || e.ReleaseSlot? || e.ReadDone?
    ensures Tasked(s, e).scopes == s.scopes
    ensures |Tasked(s, e).ops| == |s.ops| && Tasked(s, e).ops == s.ops[e.i := Tasked(s, e).ops[e.i]]
    ensures Advances(s.ops[e.i], Tasked(s, e).ops[e.i], s.scopes[s.ops[e.i].scope].core.cancel == Some(e.i))
  {
  }

  lemma TaskScopes(s: System, e: TaskEvent)
    requires ScopesOk(s.scopes, s.ops) && CanTask(s, e)
    ensures ScopesOk(Tasked(s, e).scopes, Tasked(s, e).ops)
  {
    if e.FinishSection? {
      FinishKeeps(s, e.i);
    } else {
      TaskAdvances(s, e);
      AdvanceKeeps(s.scopes, s.ops, e.i, Tasked(s, e).ops[e.i]);
    }
  }

  lemma WorkScopes(s: System, e: WorkerEvent)
    requires ScopesOk(s.scopes, s.ops) && CanWork(s, e)
    requires QueueOk(s.ops, s.queue, s.worker, s.accepted, s.finished)
    ensures ScopesOk(Worked(s, e).scopes, Worked(s, e).ops)
  {
    match e {
      case Wake =>
      case Take => if s.queue != [] { PhaseMoves(s, s.queue[0], AtGate); }
      case Complete => PhaseMoves(s, s.worker.op, Gone);
    }
  }

  lemma PhaseMoves(s: System, i: nat, p: Phase)
    requires ScopesOk(s.scopes, s.ops) && i < |s.ops| && s.ops[i].kind == Mutation && !s.ops[i].slot
    requires (s.ops[i].phase == Queued && p == AtGate) || (s.ops[i].phase == Returned && p == Gone)
    ensures ScopesOk(s.scopes, s.ops[i := s.ops[i].(phase := p)])
  {
    assert OpOk(s.ops[i], i, s.scopes);
    AdvanceKeeps(s.scopes, s.ops, i, s.ops[i].(phase := p));
  }

  lemma ControlScopes(s: System, e: ControlEvent)
    requires ScopesOk(s.scopes, s.ops) && CanControl(s, e)
    ensures ScopesOk(Controlled(s, e).scopes, Controlled(s, e).ops)
  {
    match e {
      case CancelScope(k) => ReplacingKeeps(s, k);
      case InvalidateScope(k) => ReplacingKeeps(s, k);
      case CloseScope(k) => ReplacingKeeps(s, k);
      case CloserScope(k) => ReplacingKeeps(s, k);
      case _ =>
    }
  }
}
