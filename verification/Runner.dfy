/** The task runner's own fields. Each method is one mutex section or channel
    operation of the source, and is one step of the transition system. */
module RunnerModel {
  import opened Wrappers
  import opened ScopeModel
  import opened TaskRunner

  /** A queued task is an operation index. */
  class Runner {
    var closed: bool
    var scopes: set<nat>
    var mutationQueue: seq<nat>
    var mutationReady: bool
    var readSlots: nat
    var tasks: nat
    /** Scopes, operations, the dispatcher and the place of each goroutine. */
    ghost var rest: System

    ghost function State(): System
      reads this
    {
      rest.(closed := closed, registered := scopes, queue := mutationQueue, ready := mutationReady,
            slots := readSlots, wg := tasks)
    }

    constructor (maxConcurrentReads: nat)
      requires maxConcurrentReads >= 1
      ensures State() == Initial(maxConcurrentReads)
    {
      closed, scopes, mutationQueue, mutationReady, readSlots, tasks := false, {}, [], false, 0, 0;
      rest := Initial(maxConcurrentReads);
    }

    // ----- registration -----

    /** The new scope's index is the number of scopes so far. */
    method Register(scope: nat, watched: bool) returns (ok: bool)
      requires scope == |State().scopes|
      modifies this
      ensures State() == Apply(old(State()), Submit(NewScope(watched)))
      ensures ok <==> |State().scopes| == |old(State()).scopes| + 1
    {
      ghost var next := Apply(State(), Submit(NewScope(watched)));
      ok := !closed;
      if ok { scopes := scopes + {scope}; }
      rest := next;
    }

    method Unregister(scope: nat)
      requires Enabled(State(), TaskRunner.Control(TaskRunner.Unregister(scope)))
      modifies this
      ensures State() == Apply(old(State()), Control(TaskRunner.Unregister(scope)))
    {
      ghost var next := Apply(State(), Control(TaskRunner.Unregister(scope)));
      scopes := scopes - {scope};
      rest := next;
    }

    // ----- accepting work -----

    /** schedule, called by the starter that holds the mutex of scope k. */
    method Schedule(ghost k: nat, kind: OperationClass, task: nat) returns (accepted: bool)
      requires Enabled(State(), Submit(StartSchedule(k)))
      requires State().scopes[k].lock == Some(task) && State().ops[task].kind == kind
      modifies this
      ensures State() == Apply(old(State()), Submit(StartSchedule(k)))
      ensures accepted <==> State().ops[task].phase != Refused
    {
      ghost var next := Apply(State(), Submit(StartSchedule(k)));
      accepted := !closed;
      if accepted {
        tasks := tasks + 1;
        if kind == Mutation { mutationQueue := mutationQueue + [task]; }
      }
      rest := next;
    }

    /** A non-blocking send on a channel of capacity one, made by a submitter
        after its mutation is queued and by Close after its scopes are closed. */
    method SignalMutationWorker(ghost e: Event)
      requires (e.Submit? && e.submit.StartSignal?) || e == Control(CloserSignal)
      requires Enabled(State(), e)
      modifies this
      ensures State() == Apply(old(State()), e)
    {
      ghost var next := Apply(State(), e);
      mutationReady := true;
      rest := next;
    }

    // ----- the mutation worker -----

    method AwaitSignal()
      requires Enabled(State(), WorkerStep(Wake))
      modifies this
      ensures State() == Apply(old(State()), WorkerStep(Wake))
    {
      ghost var next := Apply(State(), WorkerStep(Wake));
      mutationReady := false;
      rest := next;
    }

    /** The mutex section of the inner loop: the first queued task, or whether to
        leave the loop for good. */
    method TakeMutation() returns (task: Option<nat>, leave: bool)
      requires Enabled(State(), WorkerStep(Take))
      modifies this
      ensures State() == Apply(old(State()), WorkerStep(Take))
      ensures match task case Some(i) => State().worker == Running(i) case None => State().worker in {Parked, Exited}
      ensures leave <==> State().worker == Exited
    {
      ghost var next := Apply(State(), WorkerStep(Take));
      task, leave := None, false;
      if |mutationQueue| == 0 {
        leave := closed;
      } else {
        task := Some(mutationQueue[0]);
        mutationQueue := mutationQueue[1..];
      }
      rest := next;
    }

    method MutationDone()
      requires Enabled(State(), WorkerStep(Complete))
      modifies this
      ensures State() == Apply(old(State()), WorkerStep(Complete))
    {
      ghost var next := Apply(State(), WorkerStep(Complete));
      tasks := tasks - 1;
      rest := next;
    }

    // ----- read goroutines -----

    method AcquireReadSlot(i: nat)
      requires Enabled(State(), TaskStep(AcquireSlot(i)))
      modifies this
      ensures State() == Apply(old(State()), TaskStep(AcquireSlot(i)))
    {
      ghost var next := Apply(State(), TaskStep(AcquireSlot(i)));
      readSlots := readSlots + 1;
      rest := next;
    }

    method ReleaseReadSlot(i: nat)
      requires Enabled(State(), TaskStep(ReleaseSlot(i)))
      modifies this
      ensures State() == Apply(old(State()), TaskStep(ReleaseSlot(i)))
    {
      ghost var next := Apply(State(), TaskStep(ReleaseSlot(i)));
      readSlots := readSlots - 1;
      rest := next;
    }

    method ReadTaskDone(i: nat)
      requires Enabled(State(), TaskStep(ReadDone(i)))
      modifies this
      ensures State() == Apply(old(State()), TaskStep(ReadDone(i)))
    {
      ghost var next := Apply(State(), TaskStep(ReadDone(i)));
      tasks := tasks - 1;
      rest := next;
    }

    // ----- shutdown -----

    /** The mutex section of Close; a second call does nothing. */
    method BeginClose() returns (first: bool, toClose: set<nat>)
      modifies this
      ensures first <==> !old(closed)
      ensures State() == if first then Apply(old(State()), Control(CloserBegin)) else old(State())
      ensures first ==> State().closer == Closing(toClose)
    {
      first, toClose := !closed, {};
      if closed { return; }
      ghost var next := Apply(State(), Control(CloserBegin));
      closed := true;
      toClose := scopes;
      scopes := {};
      rest := next;
    }

    // ----- a dispatched callback -----

    /** The first check of a callback the dispatcher has taken up. */
    method CheckRunner(cb: Callback) returns (goOn: bool)
      requires Enabled(State(), Ui(GuiTake(cb)))
      modifies this
      ensures State() == Apply(old(State()), Ui(GuiTake(cb)))
      ensures goOn <==> State().gui == Taken(cb)
    {
      ghost var next := Apply(State(), Ui(GuiTake(cb)));
      goOn := !closed;
      rest := next;
    }

    /** The second check, under the scope's mutex. */
    method CheckScope(scope: Scope, revision: nat) returns (calls: bool)
      requires Enabled(State(), Ui(GuiCheck)) && State().gui.cb.revision == revision
      requires scope.State() == State().scopes[State().gui.cb.scope].core
      modifies this
      ensures State() == Apply(old(State()), Ui(GuiCheck))
      ensures calls <==> State().gui.Calling?
    {
      ghost var next := Apply(State(), Ui(GuiCheck));
      calls := !scope.closed && scope.revision == revision;
      rest := next;
    }
  }
}
