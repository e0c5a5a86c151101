/** A read that nothing disturbs: its result reaches the observer. */
module TaskRunnerUndisturbed {
  import opened Wrappers
  import opened ScopeModel
  import opened TaskRunner
  import opened TaskRunnerInvariant
  import opened TaskRunnerScopes
  import opened TaskRunnerTheorems
  import opened TaskRunnerEffects

  predicate Ran(s: System, es: seq<Event>, t: System) {
    IsRun(s, es) && Final(s, es) == t
  }

  lemma Extend(s: System, es: seq<Event>, t: System, e: Event)
    requires Ran(s, es, t) && Enabled(t, e) && Reachable(t)
    ensures Ran(s, es + [e], Apply(t, e)) && Reachable(Apply(t, e))
  {
    RunAppend(s, es, e);
    ReachableStep(t, e);
  }

  /** What stays the same on the way: nobody stops, closes or observes anything,
      and operation i is the one scope k is loading. */
  ghost predicate Calm(s: System, t: System, k: nat, i: nat) {
    && Reachable(t) && !t.closed && t.root == NoFailure && t.gui == GuiIdle && t.observed == s.observed
    && k < |t.scopes| && t.scopes[k].watched && !t.scopes[k].core.closed && t.scopes[k].core.cancel == Some(i)
    && i < |t.ops| && t.ops[i].scope == k && t.ops[i].kind == Read && t.ops[i].ctxErr == NoFailure
  }

  /** An open watched scope of an open runner with a free read slot. */
  ghost predicate ReadyForRead(s: System, k: nat) {
    && Reachable(s) && !s.closed && s.root == NoFailure && s.gui == GuiIdle && s.slots < s.cap
    && k < |s.scopes| && s.scopes[k].watched && s.scopes[k].lock.None? && !s.scopes[k].core.closed
  }

  lemma Starts(s: System, k: nat) returns (es: seq<Event>, t: System)
    requires ReadyForRead(s, k)
    ensures Ran(s, es, t) && Calm(s, t, k, |s.ops|) && t.slots < t.cap
    ensures t.ops[|s.ops|].phase == Unscheduled && t.scopes[k].lock == Some(|s.ops|)
    ensures t.ops[|s.ops|].id == s.scopes[k].core.snapshot.operation + 1
  {
    var e := Submit(StartBegin(k, Read, false));
    ScopeOf(s, k);
    Extend(s, [], s, e);
    es, t := [] + [e], Apply(s, e);
  }

  lemma Schedules(s: System, k: nat, es: seq<Event>, t: System, i: nat) returns (fs: seq<Event>, u: System)
    requires Ran(s, es, t) && Calm(s, t, k, i) && t.slots < t.cap
    requires t.ops[i].phase == Unscheduled && t.scopes[k].lock == Some(i)
    ensures Ran(s, fs, u) && Calm(s, u, k, i) && u.slots < u.cap && u.ops[i].id == t.ops[i].id
    ensures u.ops[i].phase == Waiting && u.ops[i].gate == Announcing
  {
    OperationOf(t, i);
    var e, g := Submit(StartSchedule(k)), Submit(StartUnlock(k));
    Extend(s, es, t, e);
    var m := Apply(t, e);
    Extend(s, es + [e], m, g);
    fs, u := es + [e] + [g], Apply(m, g);
  }

  lemma OpensGate(s: System, k: nat, es: seq<Event>, t: System, i: nat) returns (fs: seq<Event>, u: System)
    requires Ran(s, es, t) && Calm(s, t, k, i) && t.slots < t.cap
    requires t.ops[i].phase == Waiting && t.ops[i].gate == Announcing
    ensures Ran(s, fs, u) && Calm(s, u, k, i) && u.slots < u.cap && u.ops[i].id == t.ops[i].id
    ensures u.ops[i].phase == Waiting && u.ops[i].gate == Open
  {
    var e, g := Submit(DispatchLoading(i)), Submit(OpenGate(i));
    Extend(s, es, t, e);
    var m := Apply(t, e);
    Extend(s, es + [e], m, g);
    fs, u := es + [e] + [g], Apply(m, g);
  }

  lemma RunsBody(s: System, k: nat, es: seq<Event>, t: System, i: nat) returns (fs: seq<Event>, u: System)
    requires Ran(s, es, t) && Calm(s, t, k, i) && t.slots < t.cap
    requires t.ops[i].phase == Waiting && t.ops[i].gate == Open
    ensures Ran(s, fs, u) && Calm(s, u, k, i) && u.ops[i].phase == Body && u.ops[i].id == t.ops[i].id
  {
    var e, g := TaskStep(AcquireSlot(i)), TaskStep(PassGate(i));
    Extend(s, es, t, e);
    var m := Apply(t, e);
    Extend(s, es + [e], m, g);
    fs, u := es + [e] + [g], Apply(m, g);
  }

  lemma ReturnsValue(s: System, k: nat, es: seq<Event>, t: System, i: nat, value: int) returns (fs: seq<Event>, u: System)
    requires Ran(s, es, t) && Calm(s, t, k, i) && t.ops[i].phase == Body
    ensures Ran(s, fs, u) && Calm(s, u, k, i) && u.ops[i].id == t.ops[i].id
    ensures u.ops[i].phase == Finishing(Outcome(value, NoFailure))
  {
    var e := TaskStep(BodyReturns(i, Outcome(value, NoFailure)));
    Extend(s, es, t, e);
    fs, u := es + [e], Apply(t, e);
  }

  lemma Unlocks(t: System, k: nat, i: nat)
    requires Reachable(t) && k < |t.scopes| && i < |t.ops| && t.scopes[k].core.cancel == Some(i)
    requires t.ops[i].phase.Finishing?
    ensures t.scopes[k].lock.None?
  {
    ScopeOf(t, k);
    OperationOf(t, i);
  }

  lemma PublishesValue(s: System, k: nat, es: seq<Event>, t: System, i: nat, value: int)
    returns (fs: seq<Event>, u: System, cb: Callback)
    requires Ran(s, es, t) && Calm(s, t, k, i) && t.ops[i].phase == Finishing(Outcome(value, NoFailure))
    ensures Ran(s, fs, u) && Reachable(u) && !u.closed && u.gui == GuiIdle && u.observed == s.observed
    ensures cb in u.pending && cb.scope == k < |u.scopes| && cb.snapshot == Snapshot(t.ops[i].id, Read, Success, value, NoFailure)
    ensures !u.scopes[k].core.closed && u.scopes[k].core.revision == cb.revision
  {
    Unlocks(t, k, i);
    var e := TaskStep(FinishSection(i));
    Extend(s, es, t, e);
    var m := Apply(t, e);
    FinishPublishes(t, i, Outcome(value, NoFailure));
    ScopeOf(m, k);
    cb := m.ops[i].phase.cb;
    StaysOpen(t, i);
    var g := TaskStep(DispatchTerminal(i));
    Extend(s, es + [e], m, g);
    fs, u := es + [e] + [g], Apply(m, g);
    DeliveryReachesDispatcher(m, cb);
  }

  lemma StaysOpen(t: System, i: nat)
    requires CanTask(t, FinishSection(i)) && !t.scopes[t.ops[i].scope].core.closed
    ensures
      var m, k := Tasked(t, FinishSection(i)), t.ops[i].scope;
      && |m.scopes| == |t.scopes| && !m.scopes[k].core.closed && m.scopes[k].watched == t.scopes[k].watched
      && m.closed == t.closed && m.gui == t.gui && m.observed == t.observed
  {
  }

  lemma {:induction false} RunsJoin(s: System, p: seq<Event>, q: seq<Event>)
    requires IsRun(s, p) && IsRun(Final(s, p), q)
    ensures IsRun(s, p + q) && Final(s, p + q) == Final(Final(s, p), q)
    decreases |p|
  {
    if p == [] {
      assert p + q == q;
    } else {
      RunsJoin(Apply(s, p[0]), p[1..], q);
      assert (p + q)[1..] == p[1..] + q;
    }
  }

  /** From every reachable state with an open, watched scope and a free slot, a read
      can be started whose value, whatever it is, is what the observer gets next,
      as the success of the operation with the scope's next ID. */
  lemma ReadReachesObserver(s: System, k: nat, value: int) returns (es: seq<Event>)
    requires ReadyForRead(s, k)
    ensures IsRun(s, es)
    ensures
      var t := Final(s, es);
      && |t.observed| == |s.observed| + 1 && s.observed <= t.observed
      && t.observed[|s.observed|].scope == k
      && t.observed[|s.observed|].snapshot ==
           Snapshot(s.scopes[k].core.snapshot.operation + 1, Read, Success, value, NoFailure)
  {
    var i := |s.ops|;
    var t, cb;
    es, t := Starts(s, k);
    es, t := Schedules(s, k, es, t, i);
    es, t := OpensGate(s, k, es, t, i);
    es, t := RunsBody(s, k, es, t, i);
    es, t := ReturnsValue(s, k, es, t, i, value);
    es, t, cb := PublishesValue(s, k, es, t, i, value);
    var rest := CurrentIsObserved(t, cb);
    RunsJoin(s, es, rest);
    es := es + rest;
  }
}
