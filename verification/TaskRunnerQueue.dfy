/** Every event keeps the mutation queue, the wake-up discipline, the counters
    and the shutdown bookkeeping. */
module TaskRunnerQueue {
  import opened Wrappers
  import opened ScopeModel
  import opened TaskRunner
  import opened TaskRunnerInvariant
  import opened TaskRunnerScopes

  // ----- queue -----

  predicate KeepsPlace(o: Op, p: Op) {
    && p.kind == o.kind
    && (o.phase == Queued ==> p.phase == Queued)
    && (o.phase == Gone ==> p.phase == Gone)
    && (o.kind == Mutation ==> (Active(o.phase) <==> Active(p.phase)))
  }

  predicate AllKeepPlace(ops: seq<Op>, ops': seq<Op>) {
    && |ops| <= |ops'|
    && (forall i | 0 <= i < |ops| :: KeepsPlace(ops[i], ops'[i]))
    && (forall i | |ops| <= i < |ops'| :: !Active(ops'[i].phase))
  }

  lemma QueueFrame(s: System, ops': seq<Op>)
    requires QueueOk(s.ops, s.queue, s.worker, s.accepted, s.finished) && AllKeepPlace(s.ops, ops')
    ensures QueueOk(ops', s.queue, s.worker, s.accepted, s.finished)
  {
    forall i | 0 <= i < |ops'| ensures OpQueueOk(ops'[i], i, s.worker) {
      if i < |s.ops| { assert OpQueueOk(s.ops[i], i, s.worker) && KeepsPlace(s.ops[i], ops'[i]); }
    }
    forall j | 0 <= j < |s.queue| ensures ops'[s.queue[j]].phase == Queued {
      assert KeepsPlace(s.ops[s.queue[j]], ops'[s.queue[j]]);
    }
    forall j | 0 <= j < |s.finished| ensures ops'[s.finished[j]].phase == Gone {
      assert KeepsPlace(s.ops[s.finished[j]], ops'[s.finished[j]]);
    }
    if s.worker.Running? { assert KeepsPlace(s.ops[s.worker.op], ops'[s.worker.op]); }
  }

  lemma NotYetAccepted(s: System, i: nat)
    requires QueueOk(s.ops, s.queue, s.worker, s.accepted, s.finished)
    requires i < |s.ops| && s.ops[i].phase == Unscheduled
    ensures forall a | 0 <= a < |s.accepted| :: s.accepted[a] != i
  {
    forall a | 0 <= a < |s.accepted| ensures s.accepted[a] != i {
      var f, r := |s.finished|, |RunningNow(s.worker)|;
      if a < f { assert s.accepted[a] == s.finished[a]; }
      else if a < f + r { assert s.accepted[a] == s.worker.op; }
      else { assert s.accepted[a] == s.queue[a - f - r]; }
    }
  }

  lemma AcceptQueue(s: System, k: nat)
    requires QueueOk(s.ops, s.queue, s.worker, s.accepted, s.finished) && CanSubmit(s, StartSchedule(k))
    ensures var t := Scheduled(s, k); QueueOk(t.ops, t.queue, t.worker, t.accepted, t.finished)
  {
    var i := s.scopes[k].lock.value;
    var t := Scheduled(s, k);
    if t.queue == s.queue {
      QueueFrame(s, t.ops);
    } else {
      NotYetAccepted(s, i);
      forall j | 0 <= j < |t.ops| ensures OpQueueOk(t.ops[j], j, t.worker) {
        assert OpQueueOk(s.ops[j], j, s.worker);
      }
    }
  }

  lemma TakeQueue(s: System)
    requires ScopesOk(s.scopes, s.ops)
    requires QueueOk(s.ops, s.queue, s.worker, s.accepted, s.finished)
    requires s.worker == Draining && s.queue != []
    ensures var t := Worked(s, Take); QueueOk(t.ops, t.queue, t.worker, t.accepted, t.finished)
  {
    var t, i, f := Worked(s, Take), s.queue[0], |s.finished|;
    assert OpOk(s.ops[i], i, s.scopes);
    assert s.queue == [i] + s.queue[1..];
    forall j | 0 <= j < |t.queue| ensures t.queue[j] != i {
      assert s.accepted[f] == i && s.accepted[f + 1 + j] == s.queue[1 + j];
    }
    forall j | 0 <= j < |t.ops| ensures OpQueueOk(t.ops[j], j, t.worker) {
      assert OpQueueOk(s.ops[j], j, s.worker);
    }
  }

  lemma CompleteQueue(s: System)
    requires QueueOk(s.ops, s.queue, s.worker, s.accepted, s.finished) && CanWork(s, Complete)
    ensures var t := Worked(s, Complete); QueueOk(t.ops, t.queue, t.worker, t.accepted, t.finished)
  {
    var t := Worked(s, Complete);
    forall j | 0 <= j < |t.ops| ensures OpQueueOk(t.ops[j], j, t.worker) {
      assert OpQueueOk(s.ops[j], j, s.worker);
    }
    forall j | 0 <= j < |s.queue| ensures s.queue[j] != s.worker.op {
      assert s.ops[s.queue[j]].phase == Queued;
    }
  }

  lemma WorkQueue(s: System, e: WorkerEvent)
    requires ScopesOk(s.scopes, s.ops)
    requires QueueOk(s.ops, s.queue, s.worker, s.accepted, s.finished) && CanWork(s, e)
    ensures var t := Worked(s, e); QueueOk(t.ops, t.queue, t.worker, t.accepted, t.finished)
  {
    match e {
      case Wake =>
        assert forall j | 0 <= j < |s.ops| :: OpQueueOk(s.ops[j], j, s.worker) ==> OpQueueOk(s.ops[j], j, Draining);
      case Take =>
        if s.queue != [] { TakeQueue(s); }
        else {
          assert forall j | 0 <= j < |s.ops| ::
            OpQueueOk(s.ops[j], j, s.worker) ==> OpQueueOk(s.ops[j], j, Worked(s, e).worker);
        }
      case Complete => CompleteQueue(s);
    }
  }

  // ----- counters -----

  lemma SetUpdate(a: set<nat>, b: set<nat>, i: nat, now: bool)
    requires forall j :: j in b <==> if j == i then now else j in a
    ensures |b| == |a| + (if now then 1 else 0) - (if i in a then 1 else 0)
  {
    if now && i in a { assert b == a; }
    else if now { assert b == a + {i}; }
    else if i in a { assert b == a - {i}; }
    else { assert b == a; }
  }

  lemma SlotUpdate(ops: seq<Op>, i: nat, p: Op)
    requires i < |ops|
    ensures |SlotHolders(ops[i := p])| ==
      |SlotHolders(ops)| + (if p.slot then 1 else 0) - (if ops[i].slot then 1 else 0)
  {
    var a, b := SlotHolders(ops), SlotHolders(ops[i := p]);
    forall j ensures j in b <==> if j == i then p.slot else j in a {
    }
    SetUpdate(a, b, i, p.slot);
  }

  lemma LiveUpdate(ops: seq<Op>, i: nat, p: Op)
    requires i < |ops|
    ensures |LiveReads(ops[i := p])| ==
      |LiveReads(ops)| + (if LiveRead(p) then 1 else 0) - (if LiveRead(ops[i]) then 1 else 0)
  {
    var a, b := LiveReads(ops), LiveReads(ops[i := p]);
    forall j ensures j in b <==> if j == i then LiveRead(p) else j in a {
    }
    SetUpdate(a, b, i, LiveRead(p));
  }

  lemma CountsUpdate(ops: seq<Op>, i: nat, p: Op)
    requires i < |ops|
    ensures |SlotHolders(ops[i := p])| ==
      |SlotHolders(ops)| + (if p.slot then 1 else 0) - (if ops[i].slot then 1 else 0)
    ensures |LiveReads(ops[i := p])| ==
      |LiveReads(ops)| + (if LiveRead(p) then 1 else 0) - (if LiveRead(ops[i]) then 1 else 0)
  {
    SlotUpdate(ops, i, p);
    LiveUpdate(ops, i, p);
  }

  lemma CountsCancel(ops: seq<Op>, c: Option<nat>)
    ensures |SlotHolders(CancelCtx(ops, c))| == |SlotHolders(ops)|
    ensures |LiveReads(CancelCtx(ops, c))| == |LiveReads(ops)|
  {
    if c.Some? && c.value < |ops| {
      CountsUpdate(ops, c.value, Stop(ops[c.value]));
    }
  }

  lemma CountsAppend(ops: seq<Op>, o: Op)
    requires !o.slot && !LiveRead(o)
    ensures SlotHolders(ops + [o]) == SlotHolders(ops) && LiveReads(ops + [o]) == LiveReads(ops)
  {
  }

  lemma BegunCounts(s: System, k: nat, kind: OperationClass, exclusive: bool)
    requires CountsOk(s) && k < |s.scopes|
    ensures CountsOk(Begun(s, k, kind, exclusive))
  {
    var t := Begun(s, k, kind, exclusive);
    if t != s {
      CountsCancel(s.ops, s.scopes[k].core.cancel);
      CountsAppend(CancelCtx(s.ops, s.scopes[k].core.cancel), t.ops[|s.ops|]);
    }
  }

  lemma ScheduledCounts(s: System, k: nat)
    requires ScopesOk(s.scopes, s.ops) && CountsOk(s) && CanSubmit(s, StartSchedule(k))
    ensures CountsOk(Scheduled(s, k))
  {
    var i := s.scopes[k].lock.value;
    assert OpOk(s.ops[i], i, s.scopes);
    CountsUpdate(s.ops, i, Scheduled(s, k).ops[i]);
  }

  lemma SubmitCounts(s: System, e: SubmitEvent)
    requires ScopesOk(s.scopes, s.ops) && CountsOk(s) && CanSubmit(s, e)
    ensures CountsOk(Submitted(s, e))
  {
    match e {
      case NewScope(_) =>
      case StartBegin(k, kind, exclusive) => BegunCounts(s, k, kind, exclusive);
      case StartSchedule(k) => ScheduledCounts(s, k);
      case StartSignal(k) =>
        var i := s.scopes[k].lock.value;
        MoveCounts(s, i, s.ops[i].(owes := false));
      case StartUnlock(k) =>
        var i := s.scopes[k].lock.value;
        MoveCounts(s, i, s.ops[i].(gate := Announcing));
      case DispatchLoading(i) => MoveCounts(s, i, s.ops[i].(gate := Announced));
      case OpenGate(i) => MoveCounts(s, i, s.ops[i].(gate := Open));
    }
  }

  lemma MoveCounts(s: System, i: nat, p: Op)
    requires CountsOk(s) && i < |s.ops| && p.slot == s.ops[i].slot && LiveRead(p) == LiveRead(s.ops[i])
    ensures CountsOk(s.(ops := s.ops[i := p]))
  {
    CountsUpdate(s.ops, i, p);
  }

  lemma TaskCounts(s: System, e: TaskEvent)
    requires ScopesOk(s.scopes, s.ops) && CountsOk(s) && CanTask(s, e)
    ensures CountsOk(Tasked(s, e))
  {
    if e.AcquireSlot? || e.ReleaseSlot? {
      SlotCounts(s, e);
    } else if e.ReadDone? {
      CountsUpdate(s.ops, e.i, s.ops[e.i].(phase := Gone));
    } else {
      KeepsCounted(s, e);
      MoveCounts(s, e.i, Tasked(s, e).ops[e.i]);
    }
  }

  lemma SlotCounts(s: System, e: TaskEvent)
    requires ScopesOk(s.scopes, s.ops) && CountsOk(s) && CanTask(s, e) && (e.AcquireSlot? || e.ReleaseSlot?)
    ensures CountsOk(Tasked(s, e))
  {
    assert OpOk(s.ops[e.i], e.i, s.scopes);
    CountsUpdate(s.ops, e.i, Tasked(s, e).ops[e.i]);
  }

  lemma KeepsCounted(s: System, e: TaskEvent)
    requires ScopesOk(s.scopes, s.ops) && CanTask(s, e)
    requires !e.AcquireSlot? && !e.ReleaseSlot? && !e.ReadDone?
    ensures
      var t := Tasked(s, e);
      && |t.ops| == |s.ops| && t.ops == s.ops[e.i := t.ops[e.i]]
      && t.ops[e.i].slot == s.ops[e.i].slot && LiveRead(t.ops[e.i]) == LiveRead(s.ops[e.i])
      && t.slots == s.slots && t.cap == s.cap && t.wg == s.wg && t.queue == s.queue && t.worker == s.worker
  {
    assert OpOk(s.ops[e.i], e.i, s.scopes);
  }

  lemma WorkCounts(s: System, e: WorkerEvent)
    requires QueueOk(s.ops, s.queue, s.worker, s.accepted, s.finished)
    requires ScopesOk(s.scopes, s.ops) && CountsOk(s) && CanWork(s, e)
    ensures CountsOk(Worked(s, e))
  {
    match e {
      case Wake =>
      case Take =>
        if s.queue != [] {
          assert OpOk(s.ops[s.queue[0]], s.queue[0], s.scopes);
          CountsUpdate(s.ops, s.queue[0], Worked(s, e).ops[s.queue[0]]);
        }
      case Complete =>
        assert OpOk(s.ops[s.worker.op], s.worker.op, s.scopes);
        CountsUpdate(s.ops, s.worker.op, Worked(s, e).ops[s.worker.op]);
    }
  }

  lemma ControlCounts(s: System, e: ControlEvent)
    requires CountsOk(s) && CanControl(s, e)
    ensures CountsOk(Controlled(s, e))
  {
    if e.CancelScope? || e.InvalidateScope? || e.CloseScope? || e.CloserScope? {
      CountsCancel(s.ops, s.scopes[e.k].core.cancel);
    }
  }

  // ----- wake-up -----

  /** Nobody who owes a signal forgets it. */
  lemma OwedFrame(ops: seq<Op>, ops': seq<Op>)
    requires |ops| <= |ops'|
    requires forall i | 0 <= i < |ops| :: ops[i].owes ==> ops'[i].owes
    ensures Owed(ops) ==> Owed(ops')
  {
    if Owed(ops) {
      var i :| 0 <= i < |ops| && ops[i].owes;
      assert ops'[i].owes;
    }
  }

  lemma SubmitWake(s: System, e: SubmitEvent)
    requires WakeOk(s) && CanSubmit(s, e)
    ensures WakeOk(Submitted(s, e))
  {
    var t := Submitted(s, e);
    if e.StartSchedule? && t.queue != s.queue {
      assert t.ops[s.scopes[e.k].lock.value].owes;
    } else if !e.StartSignal? {
      OwedFrame(s.ops, t.ops);
    }
  }

  lemma TaskWake(s: System, e: TaskEvent)
    requires WakeOk(s) && CanTask(s, e)
    ensures WakeOk(Tasked(s, e))
  {
    OwedFrame(s.ops, Tasked(s, e).ops);
  }

  lemma ControlWake(s: System, e: ControlEvent)
    requires WakeOk(s) && CloseOk(s) && CanControl(s, e)
    ensures WakeOk(Controlled(s, e))
  {
    OwedFrame(s.ops, Controlled(s, e).ops);
  }

  // ----- shutdown -----

  lemma SubmitClose(s: System, e: SubmitEvent)
    requires CloseOk(s) && CanSubmit(s, e)
    ensures CloseOk(Submitted(s, e))
  {
  }

  lemma TaskClose(s: System, e: TaskEvent)
    requires CloseOk(s) && CanTask(s, e)
    ensures CloseOk(Tasked(s, e))
  {
    if e.FinishSection? {
      var t := Tasked(s, e);
      assert forall k | 0 <= k < |s.scopes| :: s.scopes[k].core.closed ==> t.scopes[k].core.closed;
    }
  }

  lemma ControlClose(s: System, e: ControlEvent)
    requires CloseOk(s) && CanControl(s, e)
    ensures CloseOk(Controlled(s, e))
  {
  }
}
