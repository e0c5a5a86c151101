/** Running a plan: the event stream of Run and the result of one check. */
module Engine {
  import opened Wrappers
  import opened Model

  datatype Check = Check(id: CheckID, name: string)

  type Plan = seq<seq<Check>>

  /** What a context reports: nothing yet, or why it stopped. Budget is a
      deadline whose cause is the exhausted auxiliary budget. */
  datatype Ctx = Live | Canceled | Deadline | Budget

  datatype RunEvent =
    | Started(id: CheckID, index: nat)
    | Completed(id: CheckID, status: Status, index: nat, result: CheckResult)

  function PlanSize(plan: Plan): nat {
    if plan == [] then 0 else PlanSize(plan[..|plan|-1]) + |plan[|plan|-1]|
  }

  /** All checks of a plan, in plan order. */
  function Flatten(plan: Plan): (checks: seq<Check>)
    ensures |checks| == PlanSize(plan)
  {
    if plan == [] then [] else Flatten(plan[..|plan|-1]) + plan[|plan|-1]
  }

  lemma {:induction false} FlattenConcat(p: Plan, q: Plan)
    ensures Flatten(p + q) == Flatten(p) + Flatten(q)
    ensures PlanSize(p + q) == PlanSize(p) + PlanSize(q)
    decreases |q|
  {
    if q == [] {
      assert p + q == p;
    } else {
      var n := |q| - 1;
      FlattenConcat(p, q[..n]);
      AppendStage(p + q[..n], q[n]);
      AppendStage(q[..n], q[n]);
      assert p + q == (p + q[..n]) + [q[n]] && q == q[..n] + [q[n]];
    }
  }

  lemma AppendStage(p: Plan, stage: seq<Check>)
    ensures Flatten(p + [stage]) == Flatten(p) + stage && PlanSize(p + [stage]) == PlanSize(p) + |stage|
  {
    assert (p + [stage])[..|p|] == p;
  }

  /** What a check that was not started reports, by the cause of the stop. */
  function StoppedResult(check: Check, now: int, cause: Ctx): (r: CheckResult)
    ensures r.id == check.id && r.name == check.name && r.startedAt == r.finishedAt == now && r.duration == 0
    ensures cause == Budget ==>
      r.status == Skipped && r.errorCode == AuxiliaryBudget && |r.evidence| == 1 && r.evidence[0].code == AuxiliaryBudget
    ensures cause == Deadline ==> r.status == Failed && r.errorCode == OperationTimeout && r.evidence == []
    ensures cause == Canceled ==> r.status == Cancelled && r.errorCode == OperationCancelled && r.evidence == []
  {
    var r := CheckResult(check.id, check.name, Cancelled, false, [], now, now, 0, OperationCancelled, []);
    match cause
    case Budget =>
      r.(status := Skipped, errorCode := AuxiliaryBudget,
         evidence := [Evidence(IDText(check.id) + ".auxiliary_budget", check.id, None, AuxiliaryBudget, map[])])
    case Deadline => r.(status := Failed, errorCode := OperationTimeout)
    case _ => r
  }

  // ----- Run -----

  /** The surroundings of a run, indexed by position in the flattened plan:
      what the context says when a stage is reached, the clock at a check that
      is not started, and the result the stage's worker pool yields for a check. */
  datatype World = World(ctx: nat -> Ctx, clock: nat -> int, outcome: nat -> CheckResult)

  function ResultAt(world: World, check: Check, first: nat, index: nat): CheckResult {
    if world.ctx(first) != Live then StoppedResult(check, world.clock(index), world.ctx(first)) else world.outcome(index)
  }

  function StageResults(world: World, stage: seq<Check>, first: nat): seq<CheckResult> {
    seq(|stage|, i requires 0 <= i < |stage| => ResultAt(world, stage[i], first, first + i))
  }

  function StartEvents(stage: seq<Check>, first: nat): seq<RunEvent> {
    seq(|stage|, i requires 0 <= i < |stage| => Started(stage[i].id, first + i))
  }

  function CompletionOf(r: CheckResult, index: nat): RunEvent {
    Completed(r.id, r.status, index, r)
  }

  function CompletionEvents(results: seq<CheckResult>, first: nat): seq<RunEvent> {
    seq(|results|, i requires 0 <= i < |results| => CompletionOf(results[i], first + i))
  }

  function StageEvents(world: World, stage: seq<Check>, first: nat): seq<RunEvent> {
    (if world.ctx(first) != Live then [] else StartEvents(stage, first))
    + CompletionEvents(StageResults(world, stage, first), first)
  }

  function RunResults(world: World, plan: Plan, base: nat): (rs: seq<CheckResult>)
    ensures |rs| == PlanSize(plan)
  {
    if plan == [] then []
    else
      var before := plan[..|plan|-1];
      RunResults(world, before, base) + StageResults(world, plan[|plan|-1], base + PlanSize(before))
  }

  function RunEvents(world: World, plan: Plan, base: nat): seq<RunEvent> {
    if plan == [] then []
    else
      var before := plan[..|plan|-1];
      RunEvents(world, before, base) + StageEvents(world, plan[|plan|-1], base + PlanSize(before))
  }

  /** A stage's results: the outcomes of its checks if the context was live when the
      stage was reached, and stopped results with the cause otherwise. */
  predicate BlockAnswers(world: World, stage: seq<Check>, first: nat, block: seq<CheckResult>) {
    && |block| == |stage|
    && forall i | 0 <= i < |stage| ::
         block[i] ==
           if world.ctx(first) == Live then world.outcome(first + i)
           else StoppedResult(stage[i], world.clock(first + i), world.ctx(first))
  }

  predicate AnswersFrom(world: World, stage: seq<Check>, offset: nat, base: nat, results: seq<CheckResult>) {
    && offset + |stage| <= |results|
    && BlockAnswers(world, stage, base + offset, results[offset..offset + |stage|])
  }

  /** The part of the results that belongs to stage s. */
  predicate StageAnswers(world: World, plan: Plan, s: nat, base: nat, results: seq<CheckResult>)
    requires s < |plan|
  {
    AnswersFrom(world, plan[s], PlanSize(plan[..s]), base, results)
  }

  predicate Answers(world: World, plan: Plan, base: nat, results: seq<CheckResult>) {
    |results| == PlanSize(plan) && forall s | 0 <= s < |plan| :: StageAnswers(world, plan, s, base, results)
  }

  lemma AnswersLater(world: World, stage: seq<Check>, offset: nat, base: nat, before: seq<CheckResult>, more: seq<CheckResult>)
    requires AnswersFrom(world, stage, offset, base, before)
    ensures AnswersFrom(world, stage, offset, base, before + more)
  {
    assert (before + more)[offset..offset + |stage|] == before[offset..offset + |stage|];
  }

  lemma StageAnswersLater(world: World, plan: Plan, s: nat, base: nat, before: seq<CheckResult>, more: seq<CheckResult>)
    requires s < |plan| - 1 && StageAnswers(world, plan[..|plan|-1], s, base, before)
    ensures StageAnswers(world, plan, s, base, before + more)
  {
    assert plan[..|plan|-1][..s] == plan[..s];
    AnswersLater(world, plan[s], PlanSize(plan[..s]), base, before, more);
  }

  lemma LastAnswers(world: World, plan: Plan, base: nat, before: seq<CheckResult>)
    requires plan != [] && |before| == PlanSize(plan[..|plan|-1])
    ensures
      var n := |plan| - 1;
      StageAnswers(world, plan, n, base, before + StageResults(world, plan[n], base + PlanSize(plan[..n])))
  {
    var n := |plan| - 1;
    AnswersLast(world, plan[n], base, before);
  }

  lemma AnswersLast(world: World, stage: seq<Check>, base: nat, before: seq<CheckResult>)
    ensures AnswersFrom(world, stage, |before|, base, before + StageResults(world, stage, base + |before|))
  {
    var last := StageResults(world, stage, base + |before|);
    assert (before + last)[|before|..|before| + |stage|] == last;
  }

  lemma {:induction false} RunAnswers(world: World, plan: Plan, base: nat)
    ensures Answers(world, plan, base, RunResults(world, plan, base))
    decreases |plan|
  {
    if plan != [] {
      var n := |plan| - 1;
      var before := RunResults(world, plan[..n], base);
      var last := StageResults(world, plan[n], base + PlanSize(plan[..n]));
      RunAnswers(world, plan[..n], base);
      LastAnswers(world, plan, base, before);
      forall s | 0 <= s < n ensures StageAnswers(world, plan, s, base, before + last) {
        StageAnswersLater(world, plan, s, base, before, last);
      }
    }
  }

  /** The first s stages are done: their results and events. */
  ghost predicate Done(world: World, plan: Plan, s: nat, base: nat, results: seq<CheckResult>, log: seq<RunEvent>)
    requires s <= |plan|
  {
    results == RunResults(world, plan[..s], base) && log == RunEvents(world, plan[..s], base)
  }

  lemma NextStage(world: World, plan: Plan, s: nat, base: nat, results: seq<CheckResult>, log: seq<RunEvent>)
    requires s < |plan| && Done(world, plan, s, base, results, log)
    ensures
      var first := base + |results|;
      Done(world, plan, s + 1, base, results + StageResults(world, plan[s], first),
           log + StageEvents(world, plan[s], first))
  {
    assert plan[..s+1][..s] == plan[..s];
  }

  lemma SizeOfStages(plan: Plan, s: nat)
    requires s < |plan|
    ensures PlanSize(plan[..s+1]) == PlanSize(plan[..s]) + |plan[s]| <= PlanSize(plan)
  {
    assert plan[..s+1][..s] == plan[..s];
    SizePrefix(plan, s + 1);
  }

  /** Run: base is the executor's event index offset, log what the sink receives. */
  method Run(world: World, plan: Plan, base: nat) returns (results: array<CheckResult>, log: seq<RunEvent>)
    ensures fresh(results) && results[..] == RunResults(world, plan, base)
    ensures log == RunEvents(world, plan, base)
    ensures Answers(world, plan, base, results[..])
  {
    var total := PlanSize(plan);
    results := new CheckResult[total];
    log := [];
    var offset := 0;
    for s := 0 to |plan|
      invariant offset == PlanSize(plan[..s]) <= total == results.Length
      invariant Done(world, plan, s, base, results[..offset], log)
    {
      var stage := plan[s];
      SizeOfStages(plan, s);
      NextStage(world, plan, s, base, results[..offset], log);
      ghost var before := results[..offset];
      var events := RunStage(world, stage, base, results, offset);
      log := log + events;
      assert results[..offset + |stage|] == before + results[offset..offset + |stage|];
      offset := offset + |stage|;
    }
    assert plan[..|plan|] == plan;
    RunAnswers(world, plan, base);
  }

  /** One stage of Run's loop: started events unless the context has stopped,
      then one completed event per check while the results slice is filled. */
  method RunStage(world: World, stage: seq<Check>, base: nat, results: array<CheckResult>, offset: nat)
    returns (log: seq<RunEvent>)
    requires offset + |stage| <= results.Length
    modifies results
    ensures results[..offset] == old(results[..offset])
    ensures results[offset..offset + |stage|] == StageResults(world, stage, base + offset)
    ensures log == StageEvents(world, stage, base + offset)
  {
    var ctx := world.ctx(base + offset);
    log := if ctx == Live then StartEvents(stage, base + offset) else [];
    ghost var started, answers := log, StageResults(world, stage, base + offset);
    ghost var completions := CompletionEvents(answers, base + offset);
    for i := 0 to |stage|
      invariant forall j | 0 <= j < offset :: results[j] == old(results[j])
      invariant forall j | 0 <= j < i :: results[offset + j] == answers[j]
      invariant log == started + completions[..i]
    {
      var index := base + offset + i;
      var r := if ctx != Live then StoppedResult(stage[i], world.clock(index), ctx) else world.outcome(index);
      results[offset + i] := r;
      assert completions[i] == Completed(r.id, r.status, index, r);
      log := log + [Completed(r.id, r.status, index, r)];
    }
    assert results[offset..offset + |stage|] == answers;
  }

  lemma {:induction false} SizePrefix(plan: Plan, s: nat)
    requires s <= |plan|
    ensures PlanSize(plan[..s]) <= PlanSize(plan)
    decreases |plan|
  {
    if s == |plan| {
      assert plan[..s] == plan;
    } else {
      SizePrefix(plan[..|plan|-1], s);
      assert plan[..|plan|-1][..s] == plan[..s];
    }
  }
}
