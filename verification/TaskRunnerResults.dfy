/** Every result a scope publishes is what the body of a task returned. */
module TaskRunnerResults {
  import opened Wrappers
  import opened ScopeModel
  import opened TaskRunner
  import opened TaskRunnerInvariant
  import opened TaskRunnerScopes
  import opened TaskRunnerTheorems
  import opened TaskRunnerEffects

  /** The outcomes that task bodies returned during a run, with their operations. */
  function Returns(es: seq<Event>): set<(nat, Outcome)> {
    if es == [] then {} else EventReturns(es[0]) + Returns(es[1..])
  }

  function EventReturns(e: Event): set<(nat, Outcome)> {
    if e.TaskStep? then StepReturns(e.task) else {}
  }

  function StepReturns(e: TaskEvent): set<(nat, Outcome)> {
    if e.BodyReturns? then {(e.i, e.out)} else {}
  }

  /** A snapshot with a result repeats what a body of its operation returned. */
  predicate Returned(x: Snapshot, k: nat, ops: seq<Op>, returned: set<(nat, Outcome)>) {
    x.state == Success || x.state == Error ==>
      exists i: nat :: i < |ops| && ops[i].scope == k && ops[i].id == x.operation && (i, Outcome(x.value, x.err)) in returned
  }

  predicate LifeReturned(life: seq<Snapshot>, k: nat, ops: seq<Op>, returned: set<(nat, Outcome)>) {
    forall a | 0 <= a < |life| :: Returned(life[a], k, ops, returned)
  }

  predicate OutReturned(o: Op, i: nat, returned: set<(nat, Outcome)>) {
    o.phase.Finishing? && !o.attempted ==> (i, o.phase.out) in returned || o.ctxErr != NoFailure
  }

  predicate AllReturned(s: System, returned: set<(nat, Outcome)>) {
    && (forall k | 0 <= k < |s.scopes| :: LifeReturned(s.scopes[k].life, k, s.ops, returned))
    && (forall i | 0 <= i < |s.ops| :: OutReturned(s.ops[i], i, returned))
  }

  predicate SameNames(ops: seq<Op>, ops': seq<Op>) {
    |ops| <= |ops'| && forall i | 0 <= i < |ops| :: ops'[i].scope == ops[i].scope && ops'[i].id == ops[i].id
  }

  lemma LifeReturnedKept(life: seq<Snapshot>, k: nat, ops: seq<Op>, r: set<(nat, Outcome)>,
                         ops': seq<Op>, r': set<(nat, Outcome)>)
    requires LifeReturned(life, k, ops, r) && SameNames(ops, ops') && r <= r'
    ensures LifeReturned(life, k, ops', r')
  {
    forall a | 0 <= a < |life| ensures Returned(life[a], k, ops', r') {
      assert Returned(life[a], k, ops, r);
      var x := life[a];
      if x.state == Success || x.state == Error {
        var i: nat :| i < |ops| && ops[i].scope == k && ops[i].id == x.operation && (i, Outcome(x.value, x.err)) in r;
        assert ops'[i].scope == k && ops'[i].id == x.operation;
      }
    }
  }

  /** What a step may add to a scope's life: nothing, or a snapshot without a result. */
  predicate AddsNoResult(a: seq<Cell>, b: seq<Cell>) {
    && |a| <= |b|
    && (forall k | 0 <= k < |b| :: LifeGrows(if k < |a| then a[k].life else [], b[k].life))
  }

  predicate LifeGrows(before: seq<Snapshot>, after: seq<Snapshot>) {
    after == before
    || (|after| == |before| + 1 && before <= after && after[|before|].state != Success && after[|before|].state != Error)
  }

  lemma NoResultKeeps(s: System, t: System, r: set<(nat, Outcome)>, r': set<(nat, Outcome)>)
    requires AllReturned(s, r) && SameNames(s.ops, t.ops) && r <= r' && AddsNoResult(s.scopes, t.scopes)
    requires forall i | 0 <= i < |t.ops| :: OutReturned(t.ops[i], i, r')
    ensures AllReturned(t, r')
  {
    forall k | 0 <= k < |t.scopes| ensures LifeReturned(t.scopes[k].life, k, t.ops, r') {
      var before := if k < |s.scopes| then s.scopes[k].life else [];
      assert LifeGrows(before, t.scopes[k].life);
      LifeReturnedKept(before, k, s.ops, r, t.ops, r');
      forall a | 0 <= a < |t.scopes[k].life| ensures Returned(t.scopes[k].life[a], k, t.ops, r') {
        if a < |before| { assert t.scopes[k].life[a] == before[a]; }
      }
    }
  }

  lemma SubmitReturned(s: System, e: SubmitEvent, r: set<(nat, Outcome)>)
    requires ScopesOk(s.scopes, s.ops) && CanSubmit(s, e) && AllReturned(s, r)
    ensures AllReturned(Submitted(s, e), r)
  {
    SubmitGrows(s, e);
    SubmitOuts(s, e, r);
    NoResultKeeps(s, Submitted(s, e), r, r);
  }

  lemma SubmitOuts(s: System, e: SubmitEvent, r: set<(nat, Outcome)>)
    requires CanSubmit(s, e) && forall i | 0 <= i < |s.ops| :: OutReturned(s.ops[i], i, r)
    ensures forall i | 0 <= i < |Submitted(s, e).ops| :: OutReturned(Submitted(s, e).ops[i], i, r)
  {
    var t := Submitted(s, e);
    forall i | 0 <= i < |t.ops| ensures OutReturned(t.ops[i], i, r) {
      if i < |s.ops| { assert OutReturned(s.ops[i], i, r); }
    }
  }

  lemma SubmitGrows(s: System, e: SubmitEvent)
    requires CanSubmit(s, e)
    ensures SameNames(s.ops, Submitted(s, e).ops) && AddsNoResult(s.scopes, Submitted(s, e).scopes)
  {
    match e {
      case StartBegin(k, kind, exclusive) => BegunGrows(s, k, kind, exclusive);
      case StartSchedule(k) => ScheduledGrows(s, k);
      case _ =>
    }
  }

  lemma BegunGrows(s: System, k: nat, kind: OperationClass, exclusive: bool)
    requires k < |s.scopes|
    ensures SameNames(s.ops, Begun(s, k, kind, exclusive).ops)
    ensures AddsNoResult(s.scopes, Begun(s, k, kind, exclusive).scopes)
  {
  }

  lemma ScheduledGrows(s: System, k: nat)
    requires Locked(s, k)
    ensures SameNames(s.ops, Scheduled(s, k).ops) && AddsNoResult(s.scopes, Scheduled(s, k).scopes)
  {
  }

  lemma ControlReturned(s: System, e: ControlEvent, r: set<(nat, Outcome)>)
    requires CanControl(s, e) && AllReturned(s, r)
    ensures AllReturned(Controlled(s, e), r)
  {
    var t := Controlled(s, e);
    ControlGrows(s, e);
    forall i | 0 <= i < |t.ops| ensures OutReturned(t.ops[i], i, r) {
      assert OutReturned(s.ops[i], i, r);
    }
    NoResultKeeps(s, t, r, r);
  }

  lemma ReplaceGrows(s: System, k: nat, c: Core)
    requires k < |s.scopes| && c.snapshot.state != Success && c.snapshot.state != Error
    ensures SameNames(s.ops, Replace(s, k, c).ops) && AddsNoResult(s.scopes, Replace(s, k, c).scopes)
    ensures |Replace(s, k, c).ops| == |s.ops|
  {
  }

  lemma ControlGrows(s: System, e: ControlEvent)
    requires CanControl(s, e)
    ensures SameNames(s.ops, Controlled(s, e).ops) && AddsNoResult(s.scopes, Controlled(s, e).scopes)
    ensures |Controlled(s, e).ops| == |s.ops|
  {
    match e {
      case CancelScope(k) => if Cancellable(s.scopes[k].core) { ReplaceGrows(s, k, Cancel(s.scopes[k].core)); }
      case InvalidateScope(k) => if !s.scopes[k].core.closed { ReplaceGrows(s, k, Invalidate(s.scopes[k].core)); }
      case CloseScope(k) => CloseGrows(s, k);
      case CloserScope(k) => CloseGrows(s, k);
      case _ =>
    }
  }

  lemma CloseGrows(s: System, k: nat)
    requires k < |s.scopes|
    ensures SameNames(s.ops, ClosingScope(s, k).ops) && AddsNoResult(s.scopes, ClosingScope(s, k).scopes)
    ensures |ClosingScope(s, k).ops| == |s.ops|
  {
  }

  lemma WorkReturned(s: System, e: WorkerEvent, r: set<(nat, Outcome)>)
    requires CanWork(s, e) && AllReturned(s, r)
    ensures AllReturned(Worked(s, e), r)
  {
    var t := Worked(s, e);
    forall i | 0 <= i < |t.ops| ensures OutReturned(t.ops[i], i, r) {
      assert OutReturned(s.ops[i], i, r);
    }
    NoResultKeeps(s, t, r, r);
  }

  lemma TaskReturned(s: System, e: TaskEvent, r: set<(nat, Outcome)>)
    requires ScopesOk(s.scopes, s.ops) && CanTask(s, e) && AllReturned(s, r)
    ensures AllReturned(Tasked(s, e), r + StepReturns(e))
  {
    var t := Tasked(s, e);
    if e.FinishSection? {
      FinishReturned(s, e.i, r);
      assert r + StepReturns(e) == r;
    } else {
      assert t.scopes == s.scopes;
      TaskOuts(s, e, r);
      NoResultKeeps(s, t, r, r + StepReturns(e));
    }
  }

  lemma TaskOuts(s: System, e: TaskEvent, r: set<(nat, Outcome)>)
    requires ScopesOk(s.scopes, s.ops) && CanTask(s, e) && AllReturned(s, r) && !e.FinishSection?
    ensures SameNames(s.ops, Tasked(s, e).ops)
    ensures forall i | 0 <= i < |Tasked(s, e).ops| :: OutReturned(Tasked(s, e).ops[i], i, r + StepReturns(e))
  {
    var o, t := s.ops[e.i], Tasked(s, e);
    assert OutReturned(o, e.i, r) && OpOk(o, e.i, s.scopes);
    OneOut(s, e, r);
    forall i | 0 <= i < |t.ops| ensures OutReturned(t.ops[i], i, r + StepReturns(e)) {
      assert OutReturned(s.ops[i], i, r);
    }
  }

  lemma OneOut(s: System, e: TaskEvent, r: set<(nat, Outcome)>)
    requires CanTask(s, e) && OutReturned(s.ops[e.i], e.i, r) && OpShape(s.ops[e.i]) && !e.FinishSection?
    ensures
      var t := Tasked(s, e);
      && |t.ops| == |s.ops| && t.ops == s.ops[e.i := t.ops[e.i]]
      && t.ops[e.i].scope == s.ops[e.i].scope && t.ops[e.i].id == s.ops[e.i].id
      && OutReturned(t.ops[e.i], e.i, r + StepReturns(e))
  {
  }

  lemma FinishReturned(s: System, i: nat, r: set<(nat, Outcome)>)
    requires ScopesOk(s.scopes, s.ops) && CanTask(s, FinishSection(i)) && AllReturned(s, r)
    ensures AllReturned(Tasked(s, FinishSection(i)), r)
  {
    var o, t := s.ops[i], Tasked(s, FinishSection(i));
    assert SameNames(s.ops, t.ops);
    forall j | 0 <= j < |t.ops| ensures OutReturned(t.ops[j], j, r) {
      assert OutReturned(s.ops[j], j, r);
    }
    if Commits(s.scopes[o.scope].core, o.id) {
      CommitReturned(s, i, r);
    } else {
      NoResultKeeps(s, t, r, r);
    }
  }

  lemma CommitReturned(s: System, i: nat, r: set<(nat, Outcome)>)
    requires ScopesOk(s.scopes, s.ops) && CanTask(s, FinishSection(i)) && AllReturned(s, r)
    requires Commits(s.scopes[s.ops[i].scope].core, s.ops[i].id)
    ensures
      var t := Tasked(s, FinishSection(i));
      |t.scopes| == |s.scopes| && forall k | 0 <= k < |t.scopes| :: LifeReturned(t.scopes[k].life, k, t.ops, r)
  {
    var o, t, k := s.ops[i], Tasked(s, FinishSection(i)), s.ops[i].scope;
    CommitterIsCurrent(s.scopes, s.ops, i);
    assert CellOk(s.scopes[k], k, s.ops) && OpOk(o, i, s.scopes) && OutReturned(o, i, r);
    CurrentLoads(s.scopes[k], o);
    FinishCommits(s, i, o.phase.out);
    forall m | 0 <= m < |t.scopes| ensures LifeReturned(t.scopes[m].life, m, t.ops, r) {
      LifeReturnedKept(s.scopes[m].life, m, s.ops, r, t.ops, r);
      if m == k { LastReturned(s.scopes[k].life, Result(o, o.phase.out), k, t.ops, r, i, o); }
    }
  }

  lemma LastReturned(life: seq<Snapshot>, x: Snapshot, k: nat, ops: seq<Op>, r: set<(nat, Outcome)>, i: nat, o: Op)
    requires LifeReturned(life, k, ops, r) && i < |ops| && ops[i].scope == k && ops[i].id == o.id
    requires o.phase.Finishing? && x == Result(o, o.phase.out)
    requires (i, o.phase.out) in r || o.ctxErr != NoFailure
    ensures LifeReturned(life + [x], k, ops, r)
  {
    assert Returned(x, k, ops, r);
  }

  lemma UiReturned(s: System, e: GuiEvent, r: set<(nat, Outcome)>)
    requires CanUi(s, e) && AllReturned(s, r)
    ensures AllReturned(Shown(s, e), r)
  {
    assert Shown(s, e).ops == s.ops && Shown(s, e).scopes == s.scopes;
  }

  lemma StepReturned(s: System, e: Event, r: set<(nat, Outcome)>)
    requires Inv(s) && Enabled(s, e) && AllReturned(s, r)
    ensures AllReturned(Apply(s, e), r + EventReturns(e))
  {
    assert !e.TaskStep? ==> r + EventReturns(e) == r;
    match e {
      case Submit(x) => SubmitReturned(s, x, r);
      case TaskStep(x) => TaskReturned(s, x, r);
      case WorkerStep(x) => WorkReturned(s, x, r);
      case Control(x) => ControlReturned(s, x, r);
      case Ui(x) => UiReturned(s, x, r);
    }
  }

  lemma StepWithin(s: System, e: Event, r: set<(nat, Outcome)>)
    requires Inv(s) && Enabled(s, e) && AllReturned(s, r) && EventReturns(e) <= r
    ensures Inv(Apply(s, e)) && AllReturned(Apply(s, e), r)
  {
    StepInv(s, e);
    StepReturned(s, e, r);
    assert r + EventReturns(e) == r;
  }

  lemma {:induction false} RunReturned(s: System, es: seq<Event>, r: set<(nat, Outcome)>)
    requires Inv(s) && IsRun(s, es) && AllReturned(s, r) && Returns(es) <= r
    ensures AllReturned(Final(s, es), r)
    decreases |es|
  {
    if es != [] {
      StepWithin(s, es[0], r);
      RunReturned(Apply(s, es[0]), es[1..], r);
    }
  }

  /** Over every run: a scope's result, success or error, is the value and the
      error that a body of an operation with that ID returned. */
  lemma ResultsAreReturned(cap: nat, es: seq<Event>, k: nat, a: nat)
    requires cap >= 1 && IsRun(Initial(cap), es)
    requires k < |Final(Initial(cap), es).scopes| && a < |Final(Initial(cap), es).scopes[k].life|
    ensures
      var t := Final(Initial(cap), es);
      var x := t.scopes[k].life[a];
      x.state == Success || x.state == Error ==>
        exists i: nat :: i < |t.ops| && t.ops[i].scope == k && t.ops[i].id == x.operation
                      && (i, Outcome(x.value, x.err)) in Returns(es)
  {
    InitialInv(cap);
    RunReturned(Initial(cap), es, Returns(es));
    assert Returned(Final(Initial(cap), es).scopes[k].life[a], k, Final(Initial(cap), es).ops, Returns(es));
  }
}
