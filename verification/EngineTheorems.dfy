/** The order of an executor's events, and the split of a plan. */
module EngineTheorems {
  import opened Model
  import opened Engine

  /** The completed events of a log, in order. */
  function Completions(log: seq<RunEvent>): seq<RunEvent> {
    if log == [] then []
    else
      var n := |log| - 1;
      Completions(log[..n]) + (if log[n].Completed? then [log[n]] else [])
  }

  lemma {:induction false} CompletionsConcat(a: seq<RunEvent>, b: seq<RunEvent>)
    ensures Completions(a + b) == Completions(a) + Completions(b)
    decreases |b|
  {
    if b == [] {
      assert a + b == a;
    } else {
      var n := |b| - 1;
      assert (a + b)[..|a| + n] == a + b[..n];
      CompletionsConcat(a, b[..n]);
    }
  }

  lemma {:induction false} CompletionsUniform(log: seq<RunEvent>)
    ensures (forall i | 0 <= i < |log| :: log[i].Completed?) ==> Completions(log) == log
    ensures (forall i | 0 <= i < |log| :: log[i].Started?) ==> Completions(log) == []
    decreases |log|
  {
    if log != [] { CompletionsUniform(log[..|log|-1]); }
  }

  lemma CompletionEventsConcat(r: seq<CheckResult>, q: seq<CheckResult>, first: nat)
    ensures CompletionEvents(r + q, first) == CompletionEvents(r, first) + CompletionEvents(q, first + |r|)
  {
  }

  lemma StageCompletions(world: World, stage: seq<Check>, first: nat)
    ensures Completions(StageEvents(world, stage, first)) == CompletionEvents(StageResults(world, stage, first), first)
  {
    var starts := if world.ctx(first) != Live then [] else StartEvents(stage, first);
    var ends := CompletionEvents(StageResults(world, stage, first), first);
    CompletionsConcat(starts, ends);
    CompletionsUniform(starts);
    CompletionsUniform(ends);
  }

  /** Exactly one completed event per check, in plan order, carrying the result
      that Run returns at that place and the executor's own index range. */
  lemma {:induction false} CompletedInPlanOrder(world: World, plan: Plan, base: nat)
    ensures Completions(RunEvents(world, plan, base)) == CompletionEvents(RunResults(world, plan, base), base)
    decreases |plan|
  {
    if plan != [] {
      var before, stage := plan[..|plan|-1], plan[|plan|-1];
      var first := base + PlanSize(before);
      CompletedInPlanOrder(world, before, base);
      CompletionsConcat(RunEvents(world, before, base), StageEvents(world, stage, first));
      StageCompletions(world, stage, first);
      CompletionEventsConcat(RunResults(world, before, base), StageResults(world, stage, first), base);
    }
  }

  /** What Run returns at a position is the outcome of the check the plan has there
      if the context was live when its stage was reached, and a stopped result with
      the cause otherwise. */
  predicate Placed(world: World, check: Check, index: nat, r: CheckResult) {
    exists first: nat :: first <= index && PlacedFrom(world, check, first, index, r)
  }

  predicate PlacedFrom(world: World, check: Check, first: nat, index: nat, r: CheckResult) {
    if world.ctx(first) == Live then r == world.outcome(index)
    else r == StoppedResult(check, world.clock(index), world.ctx(first))
  }

  predicate AllPlaced(world: World, checks: seq<Check>, base: nat, results: seq<CheckResult>) {
    |results| == |checks| && forall i | 0 <= i < |checks| :: Placed(world, checks[i], base + i, results[i])
  }

  lemma {:induction false} ResultsPlaced(world: World, plan: Plan, base: nat)
    ensures AllPlaced(world, Flatten(plan), base, RunResults(world, plan, base))
    decreases |plan|
  {
    if plan != [] {
      var before, stage := plan[..|plan|-1], plan[|plan|-1];
      var first := base + PlanSize(before);
      var r, q := RunResults(world, before, base), StageResults(world, stage, first);
      ResultsPlaced(world, before, base);
      assert AllPlaced(world, Flatten(before) + stage, base, r + q) by {
        StagePlaced(world, stage, first);
        PlacedConcat(world, Flatten(before), stage, base, r, q);
      }
    }
  }

  lemma StagePlaced(world: World, stage: seq<Check>, first: nat)
    ensures AllPlaced(world, stage, first, StageResults(world, stage, first))
  {
    var results := StageResults(world, stage, first);
    forall i | 0 <= i < |stage| ensures Placed(world, stage[i], first + i, results[i]) {
      assert PlacedFrom(world, stage[i], first, first + i, results[i]);
    }
  }

  lemma PlacedConcat(world: World, a: seq<Check>, b: seq<Check>, base: nat, r: seq<CheckResult>, q: seq<CheckResult>)
    requires AllPlaced(world, a, base, r) && AllPlaced(world, b, base + |a|, q)
    ensures AllPlaced(world, a + b, base, r + q)
  {
    forall i | 0 <= i < |a + b| ensures Placed(world, (a + b)[i], base + i, (r + q)[i]) {
      if i >= |a| { assert Placed(world, b[i - |a|], base + |a| + (i - |a|), q[i - |a|]); }
    }
  }

  lemma {:induction false} IndexRange(world: World, plan: Plan, base: nat, i: nat)
    requires i < |RunEvents(world, plan, base)|
    ensures base <= RunEvents(world, plan, base)[i].index < base + PlanSize(plan)
    decreases |plan|
  {
    var before := plan[..|plan|-1];
    if i < |RunEvents(world, before, base)| { IndexRange(world, before, base, i); }
  }

  /** A started event that comes after a completed one belongs to a later check:
      a stage's started events all precede its completed ones, and stages follow
      one another. */
  lemma {:induction false} StartsPrecedeCompletions(world: World, plan: Plan, base: nat, i: nat, j: nat)
    requires i < j < |RunEvents(world, plan, base)|
    requires RunEvents(world, plan, base)[i].Completed? && RunEvents(world, plan, base)[j].Started?
    ensures RunEvents(world, plan, base)[i].index < RunEvents(world, plan, base)[j].index
    decreases |plan|
  {
    var before := plan[..|plan|-1];
    var n := |RunEvents(world, before, base)|;
    if j < n {
      StartsPrecedeCompletions(world, before, base, i, j);
    } else if i < n {
      IndexRange(world, before, base, i);
    }
  }

  /** Once the context has stopped it stays stopped. */
  ghost predicate Monotone(world: World) {
    forall a: nat, b: nat | a <= b && world.ctx(a) != Live :: world.ctx(b) != Live
  }

  /** From the first stage that finds the context stopped on, Run emits nothing
      but completed events. */
  lemma {:induction false} OnlyCompletionsOnceStopped(world: World, plan: Plan, base: nat, s: nat, i: nat)
    requires Monotone(world) && s < |plan| && world.ctx(base + PlanSize(plan[..s])) != Live
    requires |RunEvents(world, plan[..s], base)| <= i < |RunEvents(world, plan, base)|
    ensures RunEvents(world, plan, base)[i].Completed?
    decreases |plan|
  {
    var before := plan[..|plan|-1];
    SizePrefix(before, s);
    assert before[..s] == plan[..s];
    if s < |before| && i < |RunEvents(world, before, base)| {
      OnlyCompletionsOnceStopped(world, before, base, s, i);
    } else if s == |before| {
      assert before[..s] == before;
    }
  }

  // ----- what the log says -----

  /** A completed event repeats its result. */
  predicate Completes(e: RunEvent, r: CheckResult, index: nat) {
    e.Completed? && e.id == r.id && e.status == r.status && e.index == index && e.result == r
  }

  /** From a place in the log on, a stage's checks are started one by one, unless
      the context had stopped, and then completed one by one with these results. */
  predicate SaysStage(live: bool, stage: seq<Check>, first: nat, results: seq<CheckResult>, log: seq<RunEvent>, at: nat) {
    var starts := if live then |stage| else 0;
    && |results| == |stage| && at + starts + |stage| <= |log|
    && (forall i | 0 <= i < starts :: log[at + i] == Started(stage[i].id, first + i))
    && (forall i | 0 <= i < |stage| :: Completes(log[at + starts + i], results[i], first + i))
  }

  lemma BlockSays(world: World, stage: seq<Check>, first: nat)
    ensures SaysStage(world.ctx(first) == Live, stage, first, StageResults(world, stage, first),
                      StageEvents(world, stage, first), 0)
  {
    var results := StageResults(world, stage, first);
    var starts := if world.ctx(first) == Live then StartEvents(stage, first) else [];
    var log := StageEvents(world, stage, first);
    assert log == starts + CompletionEvents(results, first);
    forall i | 0 <= i < |stage| ensures Completes(log[0 + |starts| + i], results[i], first + i) {
      assert log[|starts| + i] == CompletionEvents(results, first)[i];
    }
  }

  lemma SaysLater(live: bool, stage: seq<Check>, first: nat, results: seq<CheckResult>,
                  before: seq<RunEvent>, log: seq<RunEvent>, after: seq<RunEvent>)
    requires SaysStage(live, stage, first, results, log, 0)
    ensures SaysStage(live, stage, first, results, before + (log + after), |before|)
  {
    var starts, all := if live then |stage| else 0, before + (log + after);
    assert forall i | 0 <= i < |log| :: all[|before| + i] == log[i];
    forall i | 0 <= i < |stage| ensures Completes(all[|before| + starts + i], results[i], first + i) {
      assert Completes(log[0 + starts + i], results[i], first + i);
    }
    forall i | 0 <= i < starts ensures all[|before| + i] == Started(stage[i].id, first + i) {
      assert log[0 + i] == Started(stage[i].id, first + i);
    }
  }

  lemma {:induction false} LogAround(world: World, plan: Plan, base: nat, s: nat) returns (after: seq<RunEvent>)
    requires s < |plan|
    ensures RunEvents(world, plan, base) ==
            RunEvents(world, plan[..s], base) + (StageEvents(world, plan[s], base + PlanSize(plan[..s])) + after)
    decreases |plan|
  {
    var n := |plan| - 1;
    if s == n {
      after := [];
      assert StageEvents(world, plan[s], base + PlanSize(plan[..s])) + [] == StageEvents(world, plan[s], base + PlanSize(plan[..s]));
    } else {
      var front := LogAround(world, plan[..n], base, s);
      assert plan[..n][..s] == plan[..s];
      var last := StageEvents(world, plan[n], base + PlanSize(plan[..n]));
      after := front + last;
      Regroup(RunEvents(world, plan[..s], base), StageEvents(world, plan[s], base + PlanSize(plan[..s])), front, last);
    }
  }

  lemma Regroup(a: seq<RunEvent>, b: seq<RunEvent>, c: seq<RunEvent>, d: seq<RunEvent>)
    ensures (a + (b + c)) + d == a + (b + (c + d))
  {
  }

  /** Where the log of the earlier stages ends, the log goes on with what stage s
      says: its own checks and nothing else. */
  lemma LogSaysStage(world: World, plan: Plan, base: nat, s: nat)
    requires s < |plan|
    ensures
      var first := base + PlanSize(plan[..s]);
      SaysStage(world.ctx(first) == Live, plan[s], first, StageResults(world, plan[s], first),
                RunEvents(world, plan, base), |RunEvents(world, plan[..s], base)|)
  {
    var after := LogAround(world, plan, base, s);
    var first := base + PlanSize(plan[..s]);
    BlockSays(world, plan[s], first);
    SaysLater(world.ctx(first) == Live, plan[s], first, StageResults(world, plan[s], first),
              RunEvents(world, plan[..s], base), StageEvents(world, plan[s], first), after);
  }

  /** The log is no longer than that. */
  lemma {:induction false} LogLength(world: World, plan: Plan, base: nat)
    ensures |RunEvents(world, plan, base)| == Starts(world, plan, base) + PlanSize(plan)
    decreases |plan|
  {
    if plan != [] { LogLength(world, plan[..|plan|-1], base); }
  }

  /** How many checks belong to stages that found a live context. */
  function Starts(world: World, plan: Plan, base: nat): nat {
    if plan == [] then 0
    else
      var before := plan[..|plan|-1];
      Starts(world, before, base) + (if world.ctx(base + PlanSize(before)) == Live then |plan[|plan|-1]| else 0)
  }

  /** Plan order: the checks of a stage come after those of the earlier stages. */
  lemma {:induction false} FlattenAt(plan: Plan, s: nat, i: nat)
    requires s < |plan| && i < |plan[s]|
    ensures PlanSize(plan[..s]) + i < |Flatten(plan)| && Flatten(plan)[PlanSize(plan[..s]) + i] == plan[s][i]
    decreases |plan|
  {
    var n := |plan| - 1;
    if s < n {
      assert plan[..n][..s] == plan[..s];
      FlattenAt(plan[..n], s, i);
    }
  }

  // ----- the split of a plan -----

  predicate HasCheck(stage: seq<Check>, id: CheckID) {
    exists i :: 0 <= i < |stage| && stage[i].id == id
  }

  /** Cut before the first stage that contains the check. */
  method SplitPlanAtCheck(plan: Plan, id: CheckID) returns (preflight: Plan, actual: Plan)
    ensures preflight + actual == plan
    ensures forall s | 0 <= s < |preflight| :: !HasCheck(preflight[s], id)
    ensures actual != [] ==> HasCheck(actual[0], id)
  {
    for s := 0 to |plan|
      invariant forall m | 0 <= m < s :: !HasCheck(plan[m], id)
    {
      for c := 0 to |plan[s]|
        invariant forall k | 0 <= k < c :: plan[s][k].id != id
      {
        if plan[s][c].id != id { continue; }
        assert HasCheck(plan[s], id);
        return plan[..s], plan[s..];
      }
    }
    return plan, [];
  }

  lemma {:induction false} WithoutCheck(plan: Plan, id: CheckID)
    requires forall s | 0 <= s < |plan| :: !HasCheck(plan[s], id)
    ensures forall i | 0 <= i < |Flatten(plan)| :: Flatten(plan)[i].id != id
    decreases |plan|
  {
    if plan != [] {
      var n := |plan| - 1;
      WithoutCheck(plan[..n], id);
      assert !HasCheck(plan[n], id);
    }
  }

  /** The last of the checks is the only one with the ID. */
  predicate EndsWith(checks: seq<Check>, id: CheckID) {
    && checks != [] && checks[|checks|-1].id == id
    && forall i | 0 <= i < |checks| - 1 :: checks[i].id != id
  }

  /** Cut directly after the first occurrence of the check, inside its stage if need be. */
  method SplitPlanAfterCheck(plan: Plan, id: CheckID) returns (mandatory: Plan, auxiliary: Plan, found: bool)
    ensures Flatten(mandatory) + Flatten(auxiliary) == Flatten(plan)
    ensures found <==> exists s :: 0 <= s < |plan| && HasCheck(plan[s], id)
    ensures found ==> EndsWith(Flatten(mandatory), id)
    ensures !found ==> mandatory == [] && auxiliary == plan
  {
    for s := 0 to |plan|
      invariant forall m | 0 <= m < s :: !HasCheck(plan[m], id)
    {
      var stage := plan[s];
      for c := 0 to |stage|
        invariant forall k | 0 <= k < c :: stage[k].id != id
      {
        if stage[c].id != id { continue; }
        mandatory := plan[..s] + [stage[..c+1]];
        auxiliary := if c + 1 < |stage| then [stage[c+1..]] else [];
        auxiliary := auxiliary + plan[s+1..];
        assert HasCheck(plan[s], id);
        SplitFlatten(plan, s, c);
        FirstOccurrence(plan, s, c, id);
        return mandatory, auxiliary, true;
      }
      assert !HasCheck(plan[s], id);
    }
    FlattenConcat([], plan);
    return [], plan, false;
  }

  lemma SplitFlatten(plan: Plan, s: nat, c: nat)
    requires s < |plan| && c < |plan[s]|
    ensures
      var mandatory := plan[..s] + [plan[s][..c+1]];
      var auxiliary := (if c + 1 < |plan[s]| then [plan[s][c+1..]] else []) + plan[s+1..];
      && Flatten(mandatory) + Flatten(auxiliary) == Flatten(plan)
      && Flatten(mandatory) != [] && Flatten(mandatory)[|Flatten(mandatory)|-1] == plan[s][c]
  {
    var left, right := plan[s][..c+1], plan[s][c+1..];
    FlattenAround(plan[..s], left, plan[s+1..]);
    FlattenAround(plan[..s], plan[s], plan[s+1..]);
    FlattenTail(right, plan[s+1..]);
    assert left + right == plan[s];
    assert plan == plan[..s] + [plan[s]] + plan[s+1..];
    Reassociate(Flatten(plan[..s]), left, right, Flatten(plan[s+1..]));
  }

  lemma FirstOccurrence(plan: Plan, s: nat, c: nat, id: CheckID)
    requires s < |plan| && c < |plan[s]| && plan[s][c].id == id
    requires (forall m | 0 <= m < s :: !HasCheck(plan[m], id)) && forall k | 0 <= k < c :: plan[s][k].id != id
    ensures EndsWith(Flatten(plan[..s] + [plan[s][..c+1]]), id)
  {
    FlattenAround(plan[..s], plan[s][..c+1], []);
    WithoutCheck(plan[..s], id);
  }

  lemma FlattenAround(before: Plan, stage: seq<Check>, after: Plan)
    ensures Flatten(before + [stage]) == Flatten(before) + stage
    ensures Flatten(before + [stage] + after) == Flatten(before) + stage + Flatten(after)
  {
    FlattenConcat(before, [stage]);
    FlattenConcat(before + [stage], after);
    FlattenOne(stage);
  }

  lemma FlattenTail(rest: seq<Check>, after: Plan)
    ensures Flatten((if |rest| > 0 then [rest] else []) + after) == rest + Flatten(after)
  {
    FlattenOne(rest);
    if |rest| > 0 { FlattenConcat([rest], after); } else { assert [] + after == after; }
  }

  lemma Reassociate(a: seq<Check>, b: seq<Check>, c: seq<Check>, d: seq<Check>)
    ensures (a + b) + (c + d) == a + (b + c) + d
  {
  }

  lemma FlattenOne(stage: seq<Check>)
    ensures Flatten([stage]) == stage
  {
    assert [stage][..0] == [];
  }

  /** Target parsing and proxy selection keep the global budget. */
  method SplitMandatoryPreflight(plan: Plan) returns (mandatory: Plan, auxiliary: Plan)
    ensures Flatten(mandatory) + Flatten(auxiliary) == Flatten(plan)
    ensures mandatory == [] ==> auxiliary == plan
    ensures mandatory != [] ==>
      || EndsWith(Flatten(mandatory), Environment)
      || (EndsWith(Flatten(mandatory), Target) && forall s | 0 <= s < |plan| :: !HasCheck(plan[s], Environment))
  {
    var found;
    mandatory, auxiliary, found := SplitPlanAfterCheck(plan, Environment);
    if found { return; }
    mandatory, auxiliary, found := SplitPlanAfterCheck(plan, Target);
    if found { return; }
    FlattenConcat([], plan);
    return [], plan;
  }

  /** What an executor with an index offset delivers for its part of the plan. */
  lemma RunDelivers(world: World, plan: Plan, base: nat)
    ensures AllPlaced(world, Flatten(plan), base, RunResults(world, plan, base))
    ensures Completions(RunEvents(world, plan, base)) == CompletionEvents(RunResults(world, plan, base), base)
  {
    CompletedInPlanOrder(world, plan, base);
    ResultsPlaced(world, plan, base);
  }
}
