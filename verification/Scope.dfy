/** The state of one GUI operation scope and its mutex-protected transitions. */
module ScopeModel {
  import opened Wrappers

  /** Errors as the scheduler distinguishes them; NoFailure is Go's nil. */
  datatype Failure = NoFailure | Canceled | DeadlineExceeded | TaskError(code: nat)

  datatype LifeState = Idle | Loading | Success | Error | Cancelled

  datatype OperationClass = NoClass | Read | Mutation

  datatype Snapshot = Snapshot(operation: nat, kind: OperationClass, state: LifeState, value: int, err: Failure)

  datatype Outcome = Outcome(value: int, err: Failure)

  /** The fields a Scope guards with its mutex. The cancel function is
      represented by the index of the operation whose context it cancels. */
  datatype Core = Core(closed: bool, nextID: nat, revision: nat, snapshot: Snapshot, cancel: Option<nat>)

  const ZERO: int := 0

  function InitialCore(): Core {
    Core(false, 0, 1, Snapshot(0, NoClass, Idle, ZERO, NoFailure), None)
  }

  predicate Terminal(state: LifeState) {
    state in {Success, Error, Cancelled}
  }

  predicate Busy(c: Core, exclusive: bool) {
    exclusive && c.snapshot.state == Loading && c.snapshot.kind == Mutation
  }

  /** First half of startWithPolicy: a new generation replaces the current one. */
  function Begin(c: Core, op: nat, kind: OperationClass): Core {
    Core(false, c.nextID + 1, c.revision + 1, Snapshot(c.nextID + 1, kind, Loading, ZERO, NoFailure), Some(op))
  }

  /** startWithPolicy when the runner refuses the task because it is closed. */
  function Reject(c: Core): Core {
    Core(true, c.nextID, c.revision + 1, c.snapshot.(state := Cancelled, err := Canceled), None)
  }

  /** The state finish commits: context cancellation outranks the task's own result. */
  function TerminalState(ctxErr: Failure, err: Failure): (s: LifeState)
    ensures Terminal(s)
    ensures s == Success <==> ctxErr == NoFailure && err == NoFailure
    ensures s == Error <==> ctxErr == NoFailure && err.TaskError?
  {
    if ctxErr != NoFailure then Cancelled
    else if err == Canceled || err == DeadlineExceeded then Cancelled
    else if err != NoFailure then Error
    else Success
  }

  predicate Commits(c: Core, id: nat) {
    !c.closed && c.snapshot.operation == id && c.snapshot.state == Loading
  }

  function Finish(c: Core, id: nat, ctxErr: Failure, out: Outcome): Core {
    if !Commits(c, id) then c
    else
      var err := if ctxErr != NoFailure && out.err == NoFailure then ctxErr else out.err;
      Core(false, c.nextID, c.revision + 1,
           Snapshot(id, c.snapshot.kind, TerminalState(ctxErr, out.err), out.value, err), None)
  }

  predicate Cancellable(c: Core) {
    !c.closed && c.snapshot.state == Loading
  }

  function Cancel(c: Core): Core {
    if !Cancellable(c) then c
    else Core(false, c.nextID, c.revision + 1, c.snapshot.(state := Cancelled, err := Canceled), None)
  }

  function Invalidate(c: Core): Core {
    if c.closed then c
    else Core(false, c.nextID + 1, c.revision + 1, Snapshot(c.nextID + 1, NoClass, Idle, ZERO, NoFailure), None)
  }

  function Close(c: Core): Core {
    if c.closed then c
    else if c.snapshot.state == Loading then
      Core(true, c.nextID, c.revision + 1, c.snapshot.(state := Cancelled, err := Canceled), None)
    else Core(true, c.nextID, c.revision, c.snapshot, None)
  }

  /** What one scope's fields satisfy between critical sections. */
  predicate CoreOk(c: Core) {
    && c.revision >= 1
    && c.nextID == c.snapshot.operation
    && (c.cancel.Some? <==> c.snapshot.state == Loading)
    && (c.closed ==> c.cancel.None?)
  }

  // ----- the sequence of snapshots a scope goes through, one per revision -----

  /** next may follow prev in a scope's life: either a fresh generation with
      the next operation ID, or the single terminal state of a loading one. */
  predicate Follows(prev: Snapshot, next: Snapshot) {
    || (next.operation == prev.operation + 1 && next.state in {Loading, Idle})
    || (next.operation == prev.operation && next.kind == prev.kind && prev.state == Loading && Terminal(next.state))
  }

  predicate Life(h: seq<Snapshot>) {
    && |h| >= 1
    && h[0] == InitialCore().snapshot
    && forall r | 1 <= r < |h| :: Follows(h[r-1], h[r])
  }

  /** Operation IDs never go back. */
  lemma {:induction false} LifeMonotone(h: seq<Snapshot>, a: nat, b: nat)
    requires Life(h) && a <= b < |h|
    ensures h[a].operation <= h[b].operation
    decreases b
  {
    if a < b {
      LifeMonotone(h, a, b - 1);
      assert Follows(h[b-1], h[b]);
    }
  }

  /** An operation ID has at most one terminal snapshot, directly after its
      one loading snapshot, and nothing else ever carries the ID. */
  lemma {:induction false} CommitsAtMostOnce(h: seq<Snapshot>, a: nat, b: nat)
    requires Life(h) && a < b < |h|
    requires h[a].operation == h[b].operation
    ensures b == a + 1 && h[a].state == Loading && Terminal(h[b].state)
  {
    LifeMonotone(h, a, b - 1);
    assert Follows(h[b-1], h[b]);
    if a + 1 < b {
      assert Follows(h[b-2], h[b-1]);
      LifeMonotone(h, a, b - 2);
    }
  }

  // ----- the source's object -----

  /** Scope as the source declares it; each method is the body of one mutex
      section, and states its whole effect through the functions above. */
  class Scope {
    var closed: bool
    var nextID: nat
    var revision: nat
    var snapshot: Snapshot
    var cancel: Option<nat>

    ghost function State(): Core
      reads this
    {
      Core(closed, nextID, revision, snapshot, cancel)
    }

    ghost predicate Valid()
      reads this
    {
      CoreOk(State())
    }

    constructor ()
      ensures Valid() && State() == InitialCore()
    {
      closed, nextID, revision, cancel := false, 0, 1, None;
      snapshot := Snapshot(0, NoClass, Idle, ZERO, NoFailure);
    }

    /** cancelled names the operation whose context the call cancels. */
    method BeginStart(op: nat, kind: OperationClass, exclusive: bool)
      returns (accepted: bool, cancelled: Option<nat>)
      requires Valid()
      modifies this
      ensures Valid()
      ensures accepted <==> !old(closed) && !Busy(old(State()), exclusive)
      ensures State() == if accepted then Begin(old(State()), op, kind) else old(State())
      ensures cancelled == if accepted then old(cancel) else None
    {
      accepted, cancelled := false, None;
      if closed { return; }
      if exclusive && snapshot.state == Loading && snapshot.kind == Mutation { return; }
      if cancel.Some? { cancelled := cancel; }
      nextID := nextID + 1;
      cancel := Some(op);
      revision := revision + 1;
      snapshot := Snapshot(nextID, kind, Loading, ZERO, NoFailure);
      accepted := true;
    }

    method RejectStart()
      requires Valid() && snapshot.state == Loading
      modifies this
      ensures Valid() && State() == Reject(old(State()))
    {
      cancel := None;
      closed := true;
      revision := revision + 1;
      snapshot := snapshot.(state := Cancelled);
      snapshot := snapshot.(err := Canceled);
    }

    method CommitFinish(id: nat, ctxErr: Failure, value: int, err: Failure) returns (committed: bool)
      requires Valid()
      modifies this
      ensures Valid()
      ensures committed <==> Commits(old(State()), id)
      ensures State() == Finish(old(State()), id, ctxErr, Outcome(value, err))
    {
      committed := false;
      if closed || snapshot.operation != id || snapshot.state != Loading { return; }
      var state, finalErr := Success, err;
      if ctxErr != NoFailure {
        state := Cancelled;
        if finalErr == NoFailure { finalErr := ctxErr; }
      } else if err == Canceled || err == DeadlineExceeded {
        state := Cancelled;
      } else if err != NoFailure {
        state := Error;
      }
      cancel := None;
      revision := revision + 1;
      snapshot := snapshot.(state := state);
      snapshot := snapshot.(value := value);
      snapshot := snapshot.(err := finalErr);
      committed := true;
    }

    method CancelCurrent() returns (cancelled: Option<nat>)
      requires Valid()
      modifies this
      ensures Valid() && State() == Cancel(old(State()))
      ensures cancelled == if Cancellable(old(State())) then old(cancel) else None
    {
      cancelled := None;
      if closed || snapshot.state != Loading { return; }
      cancelled, cancel := cancel, None;
      revision := revision + 1;
      snapshot := snapshot.(state := Cancelled);
      snapshot := snapshot.(err := Canceled);
    }

    method InvalidateCurrent() returns (id: nat, cancelled: Option<nat>)
      requires Valid()
      modifies this
      ensures Valid() && State() == Invalidate(old(State()))
      ensures id == if old(closed) then 0 else nextID
      ensures cancelled == if old(closed) then None else old(cancel)
    {
      id, cancelled := 0, None;
      if closed { return; }
      cancelled, cancel := cancel, None;
      nextID := nextID + 1;
      revision := revision + 1;
      snapshot := Snapshot(nextID, NoClass, Idle, ZERO, NoFailure);
      id := nextID;
    }

    method CloseScope() returns (cancelled: Option<nat>)
      requires Valid()
      modifies this
      ensures Valid() && State() == Close(old(State()))
      ensures cancelled == if old(closed) then None else old(cancel)
    {
      cancelled := None;
      if closed { return; }
      closed := true;
      cancelled, cancel := cancel, None;
      if snapshot.state == Loading {
        revision := revision + 1;
        snapshot := snapshot.(state := Cancelled);
        snapshot := snapshot.(err := Canceled);
      }
    }
  }
}
