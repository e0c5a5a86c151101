/** One diagnosis: the plan split over three executors, the marking of auxiliary
    preflights in the results and in the event stream, correlation and summary. */
module Diagnose {
  import opened Model
  import opened Engine
  import opened EngineTheorems
  import opened CheckRun
  import Summary
  import Correlation
  import CorrelationTheorems

  /** What decides whether the preflight is auxiliary. */
  datatype Mode = Mode(http: bool, matrix: bool, proxySelected: bool)

  /** When Diagnose marks the preflight's results, and when its event stream. */
  predicate MarksResults(m: Mode) {
    if m.http && !m.matrix then true else m.matrix && m.proxySelected
  }

  predicate MarksEvents(m: Mode) {
    m.http && (!m.matrix || m.proxySelected)
  }

  function MarkAll(results: seq<CheckResult>, proxySelected: bool): (r: seq<CheckResult>)
    ensures |r| == |results|
  {
    seq(|results|, i requires 0 <= i < |results| => MarkOne(results[i], proxySelected))
  }

  /** auxiliaryPreflightEventSink. */
  function MarkEvent(e: RunEvent, proxySelected: bool): RunEvent {
    match e
    case Started(_, _) => e
    case Completed(_, _, _, r) => e.(result := MarkOne(r, proxySelected))
  }

  function MarkStream(log: seq<RunEvent>, proxySelected: bool): (r: seq<RunEvent>)
    ensures |r| == |log|
  {
    seq(|log|, i requires 0 <= i < |log| => MarkEvent(log[i], proxySelected))
  }

  lemma {:induction false} MarkedCompletions(log: seq<RunEvent>, proxySelected: bool)
    ensures Completions(MarkStream(log, proxySelected)) == MarkStream(Completions(log), proxySelected)
    decreases |log|
  {
    if log != [] {
      var n := |log| - 1;
      MarkedCompletions(log[..n], proxySelected);
      assert MarkStream(log, proxySelected)[..n] == MarkStream(log[..n], proxySelected);
    }
  }

  lemma MarkedDelivery(log: seq<RunEvent>, results: seq<CheckResult>, base: nat, proxySelected: bool)
    requires Completions(log) == CompletionEvents(results, base)
    ensures Completions(MarkStream(log, proxySelected)) == CompletionEvents(MarkAll(results, proxySelected), base)
  {
    MarkedCompletions(log, proxySelected);
  }

  /** The results with those of the auxiliary preflight marked. */
  function Marked(raw: seq<CheckResult>, lo: nat, hi: nat, marks: bool, proxySelected: bool): (r: seq<CheckResult>)
    ensures |r| == |raw|
  {
    seq(|raw|, i requires 0 <= i < |raw| => if lo <= i < hi && marks then MarkOne(raw[i], proxySelected) else raw[i])
  }

  /** The auxiliary preflight lies between the check that selects the proxy (or,
      without one, the target check) and the stage of the HTTP check. */
  predicate Preflight(checks: seq<Check>, lo: nat, hi: nat) {
    && lo <= hi <= |checks|
    && (forall i | 0 <= i < hi :: checks[i].id != Http)
    && (lo > 0 ==> checks[lo-1].id == Environment || checks[lo-1].id == Target)
  }

  function MarkIf(results: seq<CheckResult>, marks: bool, proxySelected: bool): (r: seq<CheckResult>)
    ensures |r| == |results|
  {
    if marks then MarkAll(results, proxySelected) else results
  }

  /** The auxiliary phase with its own marking of results and of events. */
  method RunPreflight(world: World, auxiliary: Plan, base: nat, mode: Mode)
    returns (results: seq<CheckResult>, log: seq<RunEvent>, ghost raw: seq<CheckResult>)
    ensures AllPlaced(world, Flatten(auxiliary), base, raw)
    ensures results == MarkIf(raw, MarksResults(mode), mode.proxySelected)
    ensures Completions(log) == CompletionEvents(MarkIf(raw, MarksEvents(mode), mode.proxySelected), base)
  {
    var second;
    second, log := Run(world, auxiliary, base);
    RunDelivers(world, auxiliary, base);
    raw := second[..];
    if mode.http && (!mode.matrix || mode.proxySelected) {
      MarkedDelivery(log, raw, base, mode.proxySelected);
      log := MarkStream(log, mode.proxySelected);
    }
    if mode.http && !mode.matrix {
      MarkAuxiliary(second, mode.proxySelected);
    } else if mode.matrix && mode.proxySelected {
      MarkAuxiliary(second, true);
    }
    results := second[..];
  }

  lemma MarkedParts(a: seq<CheckResult>, b: seq<CheckResult>, c: seq<CheckResult>, marks: bool, proxySelected: bool)
    ensures Marked(a + b + c, |a|, |a| + |b|, marks, proxySelected) == a + MarkIf(b, marks, proxySelected) + c
  {
  }

  lemma StreamsJoin(p: seq<RunEvent>, q: seq<RunEvent>, r: seq<RunEvent>,
                    a: seq<CheckResult>, b: seq<CheckResult>, c: seq<CheckResult>)
    requires Completions(p) == CompletionEvents(a, 0)
    requires Completions(q) == CompletionEvents(b, |a|)
    requires Completions(r) == CompletionEvents(c, |a| + |b|)
    ensures Completions(p + q + r) == CompletionEvents(a + b + c, 0)
  {
    CompletionsConcat(p, q);
    CompletionsConcat(p + q, r);
    CompletionEventsConcat(a, b, 0);
    CompletionEventsConcat(a + b, c, 0);
  }

  /** raw is what the checks of the plan yielded, one by one and in order. */
  ghost predicate Delivered(world: World, checks: seq<Check>, raw: seq<CheckResult>, lo: nat, hi: nat) {
    AllPlaced(world, checks, 0, raw) && Preflight(checks, lo, hi)
  }

  /** Results and completed events are raw in the same order, with indices 0, 1,
      2, ... and only the auxiliary preflight marked. */
  predicate Presented(mode: Mode, raw: seq<CheckResult>, results: seq<CheckResult>, log: seq<RunEvent>, lo: nat, hi: nat) {
    && results == Marked(raw, lo, hi, MarksResults(mode), mode.proxySelected)
    && Completions(log) == CompletionEvents(Marked(raw, lo, hi, MarksEvents(mode), mode.proxySelected), 0)
  }

  ghost predicate Outcome(world: World, checks: seq<Check>, mode: Mode, results: seq<CheckResult>, log: seq<RunEvent>,
                          raw: seq<CheckResult>, lo: nat, hi: nat) {
    Delivered(world, checks, raw, lo, hi) && Presented(mode, raw, results, log, lo, hi)
  }

  method RunPhase(world: World, plan: Plan, base: nat) returns (results: seq<CheckResult>, log: seq<RunEvent>)
    ensures AllPlaced(world, Flatten(plan), base, results)
    ensures Completions(log) == CompletionEvents(results, base)
  {
    var all;
    all, log := Run(world, plan, base);
    results := all[..];
    RunDelivers(world, plan, base);
  }

  method RunThree(world: World, mandatory: Plan, auxiliary: Plan, size: nat, actual: Plan, mode: Mode)
    returns (results: seq<CheckResult>, log: seq<RunEvent>, ghost raw: seq<CheckResult>)
    requires size == PlanSize(mandatory) + PlanSize(auxiliary)
    requires Preflight(Flatten(mandatory) + Flatten(auxiliary), PlanSize(mandatory), size)
    ensures Outcome(world, Flatten(mandatory) + Flatten(auxiliary) + Flatten(actual), mode, results, log,
                    raw, PlanSize(mandatory), size)
  {
    var first, log1 := RunPhase(world, mandatory, 0);
    var second, log2, middle := RunPreflight(world, auxiliary, PlanSize(mandatory), mode);
    var third, log3 := RunPhase(world, actual, size);
    results, log := first + second + third, log1 + log2 + log3;
    raw := first + middle + third;
    ThreeOutcome(world, mandatory, auxiliary, size, actual, mode, first, middle, third, log1, log2, log3);
  }

  lemma ThreeOutcome(world: World, mandatory: Plan, auxiliary: Plan, size: nat, actual: Plan, mode: Mode,
                     a: seq<CheckResult>, b: seq<CheckResult>, c: seq<CheckResult>,
                     log1: seq<RunEvent>, log2: seq<RunEvent>, log3: seq<RunEvent>)
    requires size == PlanSize(mandatory) + PlanSize(auxiliary)
    requires Preflight(Flatten(mandatory) + Flatten(auxiliary), PlanSize(mandatory), size)
    requires AllPlaced(world, Flatten(mandatory), 0, a) && AllPlaced(world, Flatten(auxiliary), PlanSize(mandatory), b)
    requires AllPlaced(world, Flatten(actual), size, c)
    requires Completions(log1) == CompletionEvents(a, 0)
    requires Completions(log2) == CompletionEvents(MarkIf(b, MarksEvents(mode), mode.proxySelected), PlanSize(mandatory))
    requires Completions(log3) == CompletionEvents(c, size)
    ensures Outcome(world, Flatten(mandatory) + Flatten(auxiliary) + Flatten(actual), mode,
                    a + MarkIf(b, MarksResults(mode), mode.proxySelected) + c, log1 + log2 + log3,
                    a + b + c, PlanSize(mandatory), size)
  {
    PhasesOutcome(world, Flatten(mandatory), Flatten(auxiliary), Flatten(actual), mode, a, b, c, log1, log2, log3);
  }

  lemma PhasesOutcome(world: World, p: seq<Check>, q: seq<Check>, r: seq<Check>, mode: Mode,
                      a: seq<CheckResult>, b: seq<CheckResult>, c: seq<CheckResult>,
                      log1: seq<RunEvent>, log2: seq<RunEvent>, log3: seq<RunEvent>)
    requires AllPlaced(world, p, 0, a) && AllPlaced(world, q, |p|, b) && AllPlaced(world, r, |p| + |q|, c)
    requires Preflight(p + q, |p|, |p| + |q|)
    requires Completions(log1) == CompletionEvents(a, 0)
    requires Completions(log2) == CompletionEvents(MarkIf(b, MarksEvents(mode), mode.proxySelected), |p|)
    requires Completions(log3) == CompletionEvents(c, |p| + |q|)
    ensures Outcome(world, p + q + r, mode, a + MarkIf(b, MarksResults(mode), mode.proxySelected) + c,
                    log1 + log2 + log3, a + b + c, |p|, |p| + |q|)
  {
    PhasesDelivered(world, p, q, r, a, b, c);
    PhasesPresented(mode, a, b, c, log1, log2, log3);
  }

  lemma PhasesDelivered(world: World, p: seq<Check>, q: seq<Check>, r: seq<Check>,
                        a: seq<CheckResult>, b: seq<CheckResult>, c: seq<CheckResult>)
    requires AllPlaced(world, p, 0, a) && AllPlaced(world, q, |p|, b) && AllPlaced(world, r, |p| + |q|, c)
    requires Preflight(p + q, |p|, |p| + |q|)
    ensures Delivered(world, p + q + r, a + b + c, |p|, |p| + |q|)
  {
    PhasesPlaced(world, p, q, r, a, b, c);
    PreflightExtends(p + q, r, |p|);
  }

  lemma PhasesPresented(mode: Mode, a: seq<CheckResult>, b: seq<CheckResult>, c: seq<CheckResult>,
                        log1: seq<RunEvent>, log2: seq<RunEvent>, log3: seq<RunEvent>)
    requires Completions(log1) == CompletionEvents(a, 0)
    requires Completions(log2) == CompletionEvents(MarkIf(b, MarksEvents(mode), mode.proxySelected), |a|)
    requires Completions(log3) == CompletionEvents(c, |a| + |b|)
    ensures Presented(mode, a + b + c, a + MarkIf(b, MarksResults(mode), mode.proxySelected) + c,
                      log1 + log2 + log3, |a|, |a| + |b|)
  {
    MarkedParts(a, b, c, MarksResults(mode), mode.proxySelected);
    PhasesStream(a, b, c, log1, log2, log3, MarksEvents(mode), mode.proxySelected);
  }

  lemma PhasesStream(a: seq<CheckResult>, b: seq<CheckResult>, c: seq<CheckResult>,
                     log1: seq<RunEvent>, log2: seq<RunEvent>, log3: seq<RunEvent>, marks: bool, proxySelected: bool)
    requires Completions(log1) == CompletionEvents(a, 0)
    requires Completions(log2) == CompletionEvents(MarkIf(b, marks, proxySelected), |a|)
    requires Completions(log3) == CompletionEvents(c, |a| + |b|)
    ensures Completions(log1 + log2 + log3) ==
            CompletionEvents(Marked(a + b + c, |a|, |a| + |b|, marks, proxySelected), 0)
  {
    MarkedParts(a, b, c, marks, proxySelected);
    StreamsJoin(log1, log2, log3, a, MarkIf(b, marks, proxySelected), c);
  }

  lemma PhasesPlaced(world: World, p: seq<Check>, q: seq<Check>, r: seq<Check>,
                     a: seq<CheckResult>, b: seq<CheckResult>, c: seq<CheckResult>)
    requires AllPlaced(world, p, 0, a) && AllPlaced(world, q, |p|, b) && AllPlaced(world, r, |p| + |q|, c)
    ensures AllPlaced(world, p + q + r, 0, a + b + c)
  {
    PlacedConcat(world, p, q, 0, a, b);
    PlacedConcat(world, p + q, r, 0, a + b, c);
  }

  lemma PreflightExtends(checks: seq<Check>, more: seq<Check>, lo: nat)
    requires Preflight(checks, lo, |checks|)
    ensures Preflight(checks + more, lo, |checks|)
  {
    forall i | 0 <= i < |checks| ensures (checks + more)[i].id != Http {
      assert (checks + more)[i] == checks[i];
    }
  }

  /** The phases of Diagnose over the engine. Whatever the surroundings do, the
      checks of the plan are completed one by one, in plan order, with indices
      0, 1, 2, ...; only the auxiliary preflight is marked. */
  method RunPhases(world: World, plan: Plan, mode: Mode)
    returns (results: seq<CheckResult>, log: seq<RunEvent>)
    ensures exists raw, lo, hi :: Outcome(world, Flatten(plan), mode, results, log, raw, lo, hi)
  {
    var preflight, actual := SplitPlanAtCheck(plan, Http);
    if |actual| == 0 {
      results, log := RunPhase(world, plan, 0);
      assert Outcome(world, Flatten(plan), mode, results, log, results, 0, 0);
      return;
    }
    var mandatory, auxiliary := SplitMandatoryPreflight(preflight);
    FlattenConcat(preflight, actual);
    WithoutCheck(preflight, Http);
    ghost var raw;
    results, log, raw := RunThree(world, mandatory, auxiliary, PlanSize(preflight), actual, mode);
    assert Outcome(world, Flatten(plan), mode, results, log, raw, PlanSize(mandatory), PlanSize(preflight));
  }

  // ----- what the phases deliver, spelled out -----

  /** Under a context that never stops, what the checks yielded is what is kept:
      in plan order, and unchanged but for the marks. The results marked are those
      of direct checks in the auxiliary preflight, when an HTTP target is not probed
      as an address matrix or an address matrix goes through a proxy. */
  lemma LiveRunKeepsOutcomes(world: World, checks: seq<Check>, mode: Mode, results: seq<CheckResult>, log: seq<RunEvent>,
                             raw: seq<CheckResult>, lo: nat, hi: nat, i: nat)
    requires Outcome(world, checks, mode, results, log, raw, lo, hi) && i < |checks|
    requires forall n: nat :: world.ctx(n) == Live
    ensures |results| == |checks|
    ensures
      var outcome := world.outcome(i);
      var direct := outcome.id == Dns || outcome.id == Route || outcome.id == Tcp || outcome.id == Tls;
      var marked := lo <= i < hi && direct && ((mode.http && !mode.matrix) || (mode.matrix && mode.proxySelected));
      && (!marked ==> results[i] == outcome)
      && (marked ==> results[i] == outcome.(auxiliary := true, evidence := results[i].evidence)
                     && |results[i].evidence| == |outcome.evidence| + 1 && outcome.evidence <= results[i].evidence
                     && results[i].evidence[|outcome.evidence|].code == AuxiliaryComparison
                     && results[i].evidence[|outcome.evidence|].checkID == outcome.id)
  {
    assert Placed(world, checks[i], 0 + i, raw[i]);
    var first: nat :| first <= i && PlacedFrom(world, checks[i], first, 0 + i, raw[i]);
  }

  /** And event i of the stream completes check i, with the same ID and status. */
  lemma StreamCompletesInOrder(world: World, checks: seq<Check>, mode: Mode, results: seq<CheckResult>, log: seq<RunEvent>,
                               raw: seq<CheckResult>, lo: nat, hi: nat, i: nat)
    requires Outcome(world, checks, mode, results, log, raw, lo, hi) && i < |checks|
    ensures |Completions(log)| == |checks| == |results|
    ensures
      var e := Completions(log)[i];
      e.Completed? && e.index == i && e.id == results[i].id == e.result.id && e.status == results[i].status == e.result.status
  {
  }

  // ----- what is streamed is what is kept -----

  /** The completed events carry the results that Diagnose goes on to correlate,
      except for a non-HTTP address matrix through a proxy: there the results are
      marked and the events are not. */
  lemma StreamedAsKept(raw: seq<CheckResult>, lo: nat, hi: nat, mode: Mode)
    requires lo <= hi <= |raw|
    ensures
      Marked(raw, lo, hi, MarksEvents(mode), mode.proxySelected)
        == Marked(raw, lo, hi, MarksResults(mode), mode.proxySelected)
      <==> mode.http || !mode.matrix || !mode.proxySelected || forall i | lo <= i < hi :: !Direct(raw[i].id)
  {
    var events := Marked(raw, lo, hi, MarksEvents(mode), mode.proxySelected);
    var results := Marked(raw, lo, hi, MarksResults(mode), mode.proxySelected);
    if i :| lo <= i < hi && Direct(raw[i].id) {
      assert |MarkOne(raw[i], mode.proxySelected).evidence| == |raw[i].evidence| + 1;
      assert events[i] == results[i] || MarksEvents(mode) != MarksResults(mode);
    }
  }

  // ----- every run is storable -----

  /** Surroundings made of checks with proper IDs under a clock that does not go
      back: each outcome is one run of the check through the engine. */
  ghost predicate Proper(world: World, checks: seq<Check>, ms: seq<Meets>) {
    && |ms| == |checks|
    && forall i | 0 <= i < |checks| ::
         && Clocked(ms[i]) && !Blank(checks[i].id) && !Blank(ResultID(checks[i], ms[i]))
         && world.clock(i) > 0 && world.outcome(i) == Executed(checks[i], ms[i])
  }

  lemma PlacedStorable(world: World, checks: seq<Check>, ms: seq<Meets>, raw: seq<CheckResult>, i: nat)
    requires Proper(world, checks, ms) && AllPlaced(world, checks, 0, raw) && i < |raw|
    ensures StorableCheck(raw[i])
  {
    assert Placed(world, checks[i], 0 + i, raw[i]);
    var first: nat :| first <= i && PlacedFrom(world, checks[i], first, 0 + i, raw[i]);
    ExecutedStorable(checks[i], ms[i]);
  }

  lemma DecoratedStorable(raw: seq<CheckResult>, lo: nat, hi: nat, mode: Mode,
                          state: Correlation.State, paths: seq<Correlation.Path>, i: nat)
    requires i < |raw| && StorableCheck(raw[i])
    ensures
      var results := Marked(raw, lo, hi, MarksResults(mode), mode.proxySelected);
      var c := CorrelationTheorems.CorrelatedChecks(state, results, paths)[i];
      SameCore(raw[i], c) && StorableCheck(c)
  {
  }

  /** What the phases leave behind can be stored after correlation. */
  lemma OutcomeStorable(world: World, checks: seq<Check>, ms: seq<Meets>, mode: Mode, results: seq<CheckResult>,
                        log: seq<RunEvent>, raw: seq<CheckResult>, lo: nat, hi: nat,
                        state: Correlation.State, paths: seq<Correlation.Path>)
    requires Proper(world, checks, ms) && Outcome(world, checks, mode, results, log, raw, lo, hi)
    ensures forall r | r in CorrelationTheorems.CorrelatedChecks(state, results, paths) :: StorableCheck(r)
  {
    var correlated := CorrelationTheorems.CorrelatedChecks(state, results, paths);
    forall r | r in correlated ensures StorableCheck(r) {
      var i :| 0 <= i < |correlated| && correlated[i] == r;
      PlacedStorable(world, checks, ms, raw, i);
      DecoratedStorable(raw, lo, hi, mode, state, paths, i);
    }
  }

  /** Diagnose after the target is parsed: run the phases, correlate with what
      the network state has recorded, summarise and take the final time. The
      diagnosis passes the check, timing and status clauses of the store. */
  method RunDiagnosis(world: World, plan: Plan, mode: Mode, state: Correlation.State, started: int, finished: int,
                      ghost ms: seq<Meets>)
    returns (d: Diagnosis, log: seq<RunEvent>)
    requires 0 < started <= finished && Proper(world, Flatten(plan), ms)
    ensures Storable(d) && d.startedAt == started && d.finishedAt == finished && d.duration == finished - started
    ensures d.status == Summary.Decide(d.checks).0 && |d.checks| == PlanSize(plan)
    ensures exists results, raw, lo, hi ::
      && Outcome(world, Flatten(plan), mode, results, log, raw, lo, hi)
      && d == Assemble(started, finished,
           CorrelationTheorems.CorrelatedChecks(state, results, CorrelationTheorems.CorrelatedPaths(state)))
  {
    var results;
    results, log := RunPhases(world, plan, mode);
    ghost var raw, lo, hi :| Outcome(world, Flatten(plan), mode, results, log, raw, lo, hi);
    var paths, correlated := CorrelationTheorems.CorrelatedNetworkResult(state, results);
    OutcomeStorable(world, Flatten(plan), ms, mode, results, log, raw, lo, hi, state, paths);
    d := Assembled(started, finished, correlated);
  }

  method Assembled(started: int, finished: int, checks: seq<CheckResult>) returns (d: Diagnosis)
    requires 0 < started <= finished && forall r | r in checks :: StorableCheck(r)
    ensures d == Assemble(started, finished, checks) && Storable(d)
  {
    var summary := Summary.Build(checks);
    d := Diagnosis(true, started, finished, finished - started, summary.status, checks);
    AssembleStorable(started, finished, checks);
  }
}
