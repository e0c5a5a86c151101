/** What closing a scope or the runner still lets through. */
module TaskRunnerClosing {
  import opened Wrappers
  import opened ScopeModel
  import opened TaskRunner
  import opened TaskRunnerInvariant
  import opened TaskRunnerTheorems

  // ----- silence after closing -----

  /** The only observer call a closed scope can still see is the one whose
      check had passed before it closed. */
  lemma {:induction false} ClosedScopeSilent(s: System, es: seq<Event>, k: nat, a: nat)
    requires IsRun(s, es) && k < |s.scopes| && s.scopes[k].core.closed
    requires |s.observed| <= a < |Final(s, es).observed| && Final(s, es).observed[a].scope == k
    ensures a == |s.observed| && s.gui == Calling(Final(s, es).observed[a])
    decreases |es|
  {
    var m := Apply(s, es[0]);
    StepOlder(s, es[0]);
    RunOlder(m, es[1..]);
    GuiStep(s, es[0]);
    assert m.scopes[k].core.closed;
    if a >= |m.observed| {
      ClosedScopeSilent(m, es[1..], k, a);
    }
  }

  /** The same for Runner.Close: at most the callback already being run is
      still observed, by any scope. */
  lemma {:induction false} ClosedRunnerSilent(s: System, es: seq<Event>, a: nat)
    requires IsRun(s, es) && s.closed
    requires |s.observed| <= a < |Final(s, es).observed|
    ensures a == |s.observed| && s.gui != GuiIdle && s.gui.cb == Final(s, es).observed[a]
    decreases |es|
  {
    var m := Apply(s, es[0]);
    StepOlder(s, es[0]);
    RunOlder(m, es[1..]);
    GuiStep(s, es[0]);
    if a >= |m.observed| {
      ClosedRunnerSilent(m, es[1..], a);
    }
  }

  /** How one event can change the dispatcher and what observers received. */
  lemma GuiStep(s: System, e: Event)
    requires Enabled(s, e)
    ensures
      var m := Apply(s, e);
      || (m.gui == s.gui && m.observed == s.observed)
      || (m.gui == GuiIdle && (m.observed == s.observed || (s.gui.Calling? && m.observed == s.observed + [s.gui.cb])))
      || (s.gui == GuiIdle && m.gui.Taken? && !s.closed && m.observed == s.observed)
      || (s.gui.Taken? && m.gui == Calling(s.gui.cb) && m.observed == s.observed
          && s.gui.cb.scope < |s.scopes| && !s.scopes[s.gui.cb.scope].core.closed)
  {
    if !e.Ui? { OnlyUi(s, e); }
  }

  /** Only the dispatcher's own steps move it. */
  lemma OnlyUi(s: System, e: Event)
    requires Enabled(s, e) && !e.Ui?
    ensures Apply(s, e).gui == s.gui && Apply(s, e).observed == s.observed
  {
    match e {
      case Submit(x) => assert Submitted(s, x).gui == s.gui && Submitted(s, x).observed == s.observed;
      case TaskStep(x) => assert Tasked(s, x).gui == s.gui && Tasked(s, x).observed == s.observed;
      case WorkerStep(x) =>
      case Control(x) => assert Controlled(s, x).gui == s.gui && Controlled(s, x).observed == s.observed;
    }
  }

  /** Exactly when a closed scope's observer can still be called: when the
      dispatcher is at a call whose check had passed before the close. */
  lemma ClosedScopeExactly(s: System, k: nat)
    requires k < |s.scopes| && s.scopes[k].core.closed
    ensures
      (exists es: seq<Event>, a: nat ::
         IsRun(s, es) && |s.observed| <= a < |Final(s, es).observed| && Final(s, es).observed[a].scope == k)
      <==> s.gui.Calling? && s.gui.cb.scope == k
  {
    if es: seq<Event>, a: nat :|
         IsRun(s, es) && |s.observed| <= a < |Final(s, es).observed| && Final(s, es).observed[a].scope == k {
      ClosedScopeSilent(s, es, k, a);
    }
    if s.gui.Calling? && s.gui.cb.scope == k {
      var es := [Ui(GuiCall)];
      CallRun(s);
      assert Final(s, es).observed[|s.observed|].scope == k;
    }
  }

  /** The run that makes the observer call the dispatcher is at. */
  lemma CallRun(s: System)
    requires s.gui.Calling?
    ensures IsRun(s, [Ui(GuiCall)]) && Final(s, [Ui(GuiCall)]).observed == s.observed + [s.gui.cb]
  {
    assert IsRun(Apply(s, Ui(GuiCall)), []);
    assert [Ui(GuiCall)][1..] == [];
  }

  /** A reachable state in which a callback has passed its check. */
  lemma CheckedCallback() returns (s: System)
    ensures Reachable(s) && |s.scopes| == 1 && s.scopes[0].lock.None? && s.observed == []
    ensures s.gui == Calling(Callback(0, 1, InitialCore().snapshot, Caller))
  {
    var cb := Callback(0, 1, InitialCore().snapshot, Caller);
    s := Initial(1);
    assert IsRun(s, []) && Final(s, []) == s;
    ReachableStep(s, Submit(NewScope(true)));
    s := Apply(s, Submit(NewScope(true)));
    ReachableStep(s, Ui(Dispatch(cb)));
    s := Apply(s, Ui(Dispatch(cb)));
    ReachableStep(s, Ui(GuiTake(cb)));
    s := Apply(s, Ui(GuiTake(cb)));
    ReachableStep(s, Ui(GuiCheck));
    s := Apply(s, Ui(GuiCheck));
  }

  /** The exception is real: an observer call can follow the close of its scope. */
  lemma ObserverCallCanFollowClose()
    ensures exists s: System ::
      Reachable(s) && |s.scopes| == 1 && s.scopes[0].core.closed && s.observed == [] && CanUi(s, GuiCall)
      && s.gui.cb.scope == 0
  {
    var s := CheckedCallback();
    var t := Apply(s, Control(CloseScope(0)));
    ReachableStep(s, Control(CloseScope(0)));
    assert t.gui == s.gui && t.scopes[0].core.closed;
  }

  // ----- the runner -----

  /** The callback in hand will reach the observer unless something intervenes. */
  predicate StillCurrent(s: System) {
    s.gui.Taken? && s.gui.cb.scope < |s.scopes|
    && var core := s.scopes[s.gui.cb.scope].core; !core.closed && core.revision == s.gui.cb.revision
  }

  predicate AboutToCall(s: System) {
    s.gui.Calling? || StillCurrent(s)
  }

  /** A starter holds its scope's lock only before it has delivered anything. */
  lemma CurrentIsUnlocked(s: System)
    requires Inv(s) && StillCurrent(s)
    ensures s.scopes[s.gui.cb.scope].lock.None?
  {
    var cell := s.scopes[s.gui.cb.scope];
    assert CellOk(cell, s.gui.cb.scope, s.ops);
    if cell.lock.Some? {
      var i := cell.lock.value;
      assert OpOk(s.ops[i], i, s.scopes) && OpMailOk(s.ops[i], i, s.outbox, s.offered);
      if s.ops[i].revision < cell.core.revision {
        CommitsAtMostOnce(cell.life, s.ops[i].revision - 1, cell.core.revision - 1);
      }
      assert SameKey(s.gui.cb, LoadingCallback(s.ops[i], i));
    }
  }

  /** After Close nothing becomes about to be called. */
  lemma NoNewCall(s: System, e: Event)
    requires Inv(s) && s.closed && Enabled(s, e) && !AboutToCall(s)
    ensures !AboutToCall(Apply(s, e)) && Apply(s, e).observed == s.observed
  {
    if e.Ui? {
      UiNoNewCall(s, e.ui);
    } else {
      OnlyUi(s, e);
      if s.gui.Taken? { StaysStale(s, e); }
    }
  }

  lemma UiNoNewCall(s: System, e: GuiEvent)
    requires s.closed && CanUi(s, e) && !AboutToCall(s)
    ensures !AboutToCall(Shown(s, e)) && Shown(s, e).observed == s.observed
  {
  }

  /** A revision that has passed does not come back, nor does a closed scope. */
  lemma StaysStale(s: System, e: Event)
    requires Inv(s) && Enabled(s, e) && s.gui.Taken? && !StillCurrent(s) && Apply(s, e).gui == s.gui
    ensures !StillCurrent(Apply(s, e))
  {
    var k := s.gui.cb.scope;
    assert CallbackOk(s.gui.cb, s.scopes) && CellOk(s.scopes[k], k, s.ops);
    StepOlder(s, e);
    StepInv(s, e);
    assert CellOk(Apply(s, e).scopes[k], k, Apply(s, e).ops);
  }

  lemma {:induction false} NeverCalled(s: System, es: seq<Event>)
    requires Inv(s) && s.closed && IsRun(s, es) && !AboutToCall(s)
    ensures Final(s, es).observed == s.observed
    decreases |es|
  {
    if es != [] {
      NoNewCall(s, es[0]);
      StepInv(s, es[0]);
      StepOlder(s, es[0]);
      NeverCalled(Apply(s, es[0]), es[1..]);
    }
  }

  /** Exactly when a closed runner can still call an observer: when a callback
      has passed both checks, or has passed the runner's and would pass its
      scope's. */
  lemma ClosedRunnerExactly(s: System)
    requires Reachable(s) && s.closed
    ensures (exists es: seq<Event> :: IsRun(s, es) && Final(s, es).observed != s.observed) <==> AboutToCall(s)
  {
    ReachableInv(s);
    if es: seq<Event> :| IsRun(s, es) && Final(s, es).observed != s.observed {
      if !AboutToCall(s) { NeverCalled(s, es); }
    }
    if AboutToCall(s) { var es := CallingRun(s); }
  }

  lemma CallingRun(s: System) returns (es: seq<Event>)
    requires Inv(s) && AboutToCall(s)
    ensures IsRun(s, es) && Final(s, es).observed != s.observed
  {
    if s.gui.Calling? {
      es := [Ui(GuiCall)];
      CallRun(s);
    } else {
      es := [Ui(GuiCheck), Ui(GuiCall)];
      CurrentIsUnlocked(s);
      CallRun(Shown(s, GuiCheck));
      assert es[1..] == [Ui(GuiCall)];
    }
  }

  // ----- nothing is accepted after closing -----

  /** Not accepted: still inside its start, or refused. */
  predicate Barred(ops: seq<Op>, i: nat) {
    i < |ops| ==> ops[i].phase == Unscheduled || ops[i].phase == Refused
  }

  lemma StepBars(s: System, e: Event, i: nat)
    requires Inv(s) && s.closed && Enabled(s, e) && Barred(s.ops, i)
    ensures Barred(Apply(s, e).ops, i)
  {
    match e {
      case Submit(x) => SubmitBars(s, x, i);
      case TaskStep(x) => TaskBars(s, x, i);
      case WorkerStep(x) => WorkBars(s, x, i);
      case Control(x) => ControlBars(s, x, i);
      case Ui(x) => assert Shown(s, x).ops == s.ops;
    }
  }

  lemma SubmitBars(s: System, e: SubmitEvent, i: nat)
    requires s.closed && CanSubmit(s, e) && Barred(s.ops, i)
    ensures Barred(Submitted(s, e).ops, i)
  {
  }

  lemma TaskBars(s: System, e: TaskEvent, i: nat)
    requires CanTask(s, e) && Barred(s.ops, i)
    ensures Barred(Tasked(s, e).ops, i)
  {
  }

  lemma WorkBars(s: System, e: WorkerEvent, i: nat)
    requires QueueOk(s.ops, s.queue, s.worker, s.accepted, s.finished) && CanWork(s, e) && Barred(s.ops, i)
    ensures Barred(Worked(s, e).ops, i)
  {
  }

  lemma ControlBars(s: System, e: ControlEvent, i: nat)
    requires CanControl(s, e) && Barred(s.ops, i)
    ensures Barred(Controlled(s, e).ops, i)
  {
  }

  /** An operation that a closed runner has not accepted, of either class and
      whether or not it exists yet, never gets further than being refused. */
  lemma {:induction false} ClosedRunnerAcceptsNothing(s: System, es: seq<Event>, i: nat)
    requires Inv(s) && s.closed && IsRun(s, es) && Barred(s.ops, i)
    ensures Barred(Final(s, es).ops, i) && Final(s, es).accepted == s.accepted
    decreases |es|
  {
    if es != [] {
      StepBars(s, es[0], i);
      StepInv(s, es[0]);
      StepOlder(s, es[0]);
      ClosedRunnerAcceptsNothing(Apply(s, es[0]), es[1..], i);
    }
  }
}
