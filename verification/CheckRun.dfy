/** The result of one check, and why every run can be stored. */
module CheckRun {
  import opened Wrappers
  import opened Model
  import opened Engine
  import Summary
  import SummaryTheorems

  // ----- Complete -----

  function Own(e: Evidence, id: CheckID): Evidence {
    if e.checkID == NO_ID then e.(checkID := id) else e
  }

  function OwnAll(evidence: seq<Evidence>, id: CheckID): (owned: seq<Evidence>)
    ensures |owned| == |evidence|
  {
    seq(|evidence|, i requires 0 <= i < |evidence| => Own(evidence[i], id))
  }

  /** Evidence without a check ID has been given one; nothing else is changed. */
  predicate OnlyOwned(before: seq<Evidence>, after: seq<Evidence>, id: CheckID) {
    |after| == |before| && forall i | 0 <= i < |before| :: ItemOwned(before[i], after[i], id)
  }

  predicate ItemOwned(e: Evidence, o: Evidence, id: CheckID) {
    && o.checkID == (if e.checkID == Named("") then id else e.checkID)
    && o.id == e.id && o.networkRef == e.networkRef && o.code == e.code && o.details == e.details
  }

  /** CheckResult.Complete. */
  function Complete(r: CheckResult, started: int, finished: int): (c: CheckResult)
    ensures c.startedAt <= c.finishedAt && c.duration == c.finishedAt - c.startedAt
    ensures started != 0 && finished != 0 ==> c.startedAt != 0 && c.finishedAt != 0
    ensures c.id == r.id && c.name == r.name && c.status == r.status && c.errorCode == r.errorCode
    ensures c.auxiliary == r.auxiliary && c.networkRefs == r.networkRefs
    ensures c.startedAt == if r.startedAt == 0 then started else r.startedAt
    ensures r.finishedAt != 0 && c.startedAt <= r.finishedAt ==> c.finishedAt == r.finishedAt
    ensures r.finishedAt == 0 && c.startedAt <= finished ==> c.finishedAt == finished
    ensures OnlyOwned(r.evidence, c.evidence, r.id)
  {
    var from := if r.startedAt == 0 then started else r.startedAt;
    var until := if r.finishedAt == 0 then finished else r.finishedAt;
    var to := if until < from then from else until;
    r.(startedAt := from, finishedAt := to, duration := to - from, evidence := OwnAll(r.evidence, r.id))
  }

  // ----- the runner's skip hook -----

  datatype Validity = Unset | Invalid | Usable

  /** The part of the shared state the hook looks at. */
  datatype Proxy = Proxy(selected: bool, addressMatrix: bool, validity: Validity)

  predicate Direct(id: CheckID) {
    id == Dns || id == Route || id == Tcp || id == Tls
  }

  function Skip(check: Check, code: ErrorCode, marker: Evidence): CheckResult {
    CheckResult(check.id, check.name, Skipped, false, [], 0, 0, 0, code, [marker])
  }

  const ORIGIN: NetworkRef := NetworkRef("path-direct", "hop-origin", "")

  /** skipInvalidProxyDirectCheck. */
  function SkipDirectCheck(p: Proxy, check: Check): (r: Option<CheckResult>)
    ensures r.Some? <==> Direct(check.id) && ((p.selected && !p.addressMatrix) || p.validity != Usable)
    ensures r.Some? ==> r.value.id == check.id && r.value.name == check.name && r.value.status == Skipped
    ensures r.Some? && p.selected && !p.addressMatrix ==>
      r.value.errorCode == NO_CODE && r.value.networkRefs == [NetworkRef("path-direct", "hop-origin", "")]
    ensures r.Some? && !(p.selected && !p.addressMatrix) ==>
      && r.value.errorCode == (if p.validity == Unset then ProxySelectionUnavailable else ProxyConfigInvalid)
      && |r.value.evidence| == 1 && r.value.evidence[0].code == r.value.errorCode && r.value.networkRefs == []
  {
    if !Direct(check.id) then None
    else if p.selected && !p.addressMatrix then
      Some(Skip(check, NO_CODE, Evidence(IDText(check.id) + ".client_effective_proxy", NO_ID, Some(ORIGIN),
                                         DirectProbeNotSelected, map[])).(networkRefs := [ORIGIN]))
    else
      match p.validity
      case Usable => None
      case Unset =>
        Some(Skip(check, ProxySelectionUnavailable,
                  Evidence(IDText(check.id) + ".proxy_policy", check.id, None, ProxySelectionUnavailable, map[])))
      case Invalid =>
        Some(Skip(check, ProxyConfigInvalid,
                  Evidence(IDText(check.id) + ".proxy_policy", check.id, None, ProxyConfigInvalid, map[])))
  }

  // ----- check time-outs -----

  function TimeoutDetails(id: CheckID, name: string, budget: string, elapsed: string): map<string, string> {
    map["stage" := IDText(id), "checkName" := name, "configuredBudget" := budget, "elapsed" := elapsed]
  }

  function FillTimeout(e: Evidence, id: CheckID, details: map<string, string>): Evidence {
    e.(id := if e.id == "" then IDText(id) + ".timeout" else e.id,
       checkID := if e.checkID == NO_ID then id else e.checkID,
       details := e.details + details)
  }

  /** Some evidence item says that the check timed out, and states its budget. */
  predicate SaysTimeout(evidence: seq<Evidence>, details: map<string, string>) {
    exists i :: 0 <= i < |evidence| && evidence[i].code == CheckTimeout && Carries(evidence[i].details, details)
  }

  predicate Carries(have: map<string, string>, want: map<string, string>) {
    forall k | k in want :: k in have && have[k] == want[k]
  }

  /** The first timeout item is completed, or one is added; nothing else changes. */
  function WithTimeout(evidence: seq<Evidence>, id: CheckID, details: map<string, string>): (r: seq<Evidence>)
    ensures SaysTimeout(r, details)
    ensures |evidence| <= |r| <= |evidence| + 1
    ensures forall i | 0 <= i < |evidence| && evidence[i].code != CheckTimeout :: r[i] == evidence[i]
  {
    if evidence == [] then
      var added := Evidence(IDText(id) + ".timeout", id, None, CheckTimeout, details);
      assert [added][0].code == CheckTimeout && Carries([added][0].details, details);
      [added]
    else if evidence[0].code == CheckTimeout then
      var r := [FillTimeout(evidence[0], id, details)] + evidence[1..];
      assert r[0].code == CheckTimeout && Carries(r[0].details, details);
      r
    else
      var rest := WithTimeout(evidence[1..], id, details);
      var r := [evidence[0]] + rest;
      assert SaysTimeout(r, details) by {
        var i :| 0 <= i < |rest| && rest[i].code == CheckTimeout && Carries(rest[i].details, details);
        assert r[i + 1] == rest[i];
      }
      r
  }

  // ----- runCheck -----

  datatype Body = Panics | Returns(result: CheckResult)

  /** What one run of a check meets: the clock, the context before and after the
      body, the skip hook's state (None for an executor without the hook), the
      body's own behaviour and whether the per-check deadline passed. */
  datatype Meets = Meets(
    started: int, finished: int, before: Ctx, after: Ctx, hook: Option<Proxy>,
    body: Body, timedOut: bool, budget: string, elapsed: string)

  function PanicResult(check: Check): CheckResult {
    CheckResult(check.id, check.name, Failed, false, [], 0, 0, 0, InternalPanic,
                [Evidence(IDText(check.id) + ".panic", check.id, None, InternalPanic, map[])])
  }

  function Named0(r: CheckResult, check: Check): CheckResult {
    r.(id := if r.id == NO_ID then check.id else r.id, name := if r.name == "" then check.name else r.name)
  }

  /** How the context outcome overrides what the body returned. */
  function Overridden(r: CheckResult, check: Check, m: Meets): CheckResult {
    match m.after
    case Budget =>
      r.(status := Skipped, errorCode := AuxiliaryBudget,
         evidence := r.evidence
           + [Evidence(IDText(check.id) + ".auxiliary_budget", NO_ID, None, AuxiliaryBudget, map[])])
    case Deadline => r.(status := Failed, errorCode := OperationTimeout)
    case Canceled => r.(status := Cancelled, errorCode := OperationCancelled)
    case Live =>
      if m.timedOut then
        r.(status := Failed, errorCode := CheckTimeout,
           evidence := WithTimeout(r.evidence, r.id, TimeoutDetails(r.id, r.name, m.budget, m.elapsed)))
      else r
  }

  function Settled(r: CheckResult): CheckResult {
    if Final(r.status) then r
    else r.(status := Failed, errorCode := if r.errorCode == NO_CODE then InvalidResult else r.errorCode)
  }

  predicate HookSkips(check: Check, m: Meets) {
    m.hook.Some? && SkipDirectCheck(m.hook.value, check).Some?
  }

  function Executed(check: Check, m: Meets): CheckResult {
    if m.before != Live then StoppedResult(check, m.started, m.before)
    else if HookSkips(check, m) then
      Complete(Named0(SkipDirectCheck(m.hook.value, check).value, check), m.started, m.finished)
    else if m.body.Panics? then Complete(PanicResult(check), m.started, m.finished)
    else Complete(Settled(Overridden(Named0(m.body.result, check), check, m)), m.started, m.finished)
  }

  /** The skip hook's answer is to skip: a direct check in client-effective proxy
      mode, or without a usable proxy policy. */
  predicate MustSkip(check: Check, m: Meets) {
    && m.hook.Some? && (check.id == Dns || check.id == Route || check.id == Tcp || check.id == Tls)
    && ((m.hook.value.selected && !m.hook.value.addressMatrix) || m.hook.value.validity != Usable)
  }

  predicate Verdict(r: CheckResult, status: Status, code: ErrorCode) {
    r.status == status && r.errorCode == code
  }

  /** What runCheck may do to a result a check returned: nothing to its verdict, if
      that is a final one and nothing stopped the check. */
  predicate ReturnedVerdict(b: CheckResult, m: Meets, r: CheckResult) {
    if m.after == Budget then Verdict(r, Skipped, AuxiliaryBudget)
    else if m.after == Deadline then Verdict(r, Failed, OperationTimeout)
    else if m.after == Canceled then Verdict(r, Cancelled, OperationCancelled)
    else if m.timedOut then Verdict(r, Failed, CheckTimeout)
    else if b.status.Unknown? || b.status == Pending || b.status == Running then
      Verdict(r, Failed, if b.errorCode == Code("") then InvalidResult else b.errorCode)
    else Verdict(r, b.status, b.errorCode)
  }

  predicate ReturnedEvidence(check: Check, b: CheckResult, m: Meets, r: CheckResult) {
    if m.after == Budget then
      && |r.evidence| == |b.evidence| + 1 && r.evidence[|b.evidence|].code == AuxiliaryBudget
      && OnlyOwned(b.evidence, r.evidence[..|b.evidence|], r.id)
    else if m.after == Live && m.timedOut then
      && |b.evidence| <= |r.evidence| <= |b.evidence| + 1
      && forall i | 0 <= i < |b.evidence| && b.evidence[i].code != CheckTimeout ::
           ItemOwned(b.evidence[i], r.evidence[i], r.id)
    else OnlyOwned(b.evidence, r.evidence, r.id)
  }

  /** What a check that met m is told to have done. */
  predicate Told(check: Check, m: Meets, r: CheckResult) {
    if m.before == Budget then Verdict(r, Skipped, AuxiliaryBudget) && r.id == check.id
    else if m.before == Deadline then Verdict(r, Failed, OperationTimeout) && r.id == check.id
    else if m.before == Canceled then Verdict(r, Cancelled, OperationCancelled) && r.id == check.id
    else if MustSkip(check, m) then
      && r.status == Skipped && r.id == check.id
      && r.errorCode == (if m.hook.value.selected && !m.hook.value.addressMatrix then Code("")
                         else if m.hook.value.validity == Unset then ProxySelectionUnavailable
                         else ProxyConfigInvalid)
    else if m.body.Panics? then
      Verdict(r, Failed, InternalPanic) && r.id == check.id && |r.evidence| == 1 && r.evidence[0].code == InternalPanic
    else
      var b := m.body.result;
      && ReturnedVerdict(b, m, r) && ReturnedEvidence(check, b, m, r)
      && r.id == (if b.id == Named("") then check.id else b.id) && r.name == (if b.name == "" then check.name else b.name)
      && r.auxiliary == b.auxiliary && r.networkRefs == b.networkRefs
      && r.startedAt == (if b.startedAt == 0 then m.started else b.startedAt)
      && (b.finishedAt == 0 && r.startedAt <= m.finished ==> r.finishedAt == m.finished)
      && (b.finishedAt != 0 && r.startedAt <= b.finishedAt ==> r.finishedAt == b.finishedAt)
  }

  lemma VerdictTold(check: Check, m: Meets)
    requires m.before == Live && !MustSkip(check, m) && m.body.Returns?
    ensures ReturnedVerdict(m.body.result, m, Executed(check, m))
  {
  }

  lemma EvidenceTold(check: Check, m: Meets)
    requires m.before == Live && !MustSkip(check, m) && m.body.Returns?
    ensures ReturnedEvidence(check, m.body.result, m, Executed(check, m))
  {
    var b, r := m.body.result, Executed(check, m);
    if m.after == Budget {
      forall i | 0 <= i < |b.evidence| ensures r.evidence[..|b.evidence|][i] == Own(b.evidence[i], r.id) {
      }
    }
  }

  lemma ReturnedTold(check: Check, m: Meets)
    requires m.before == Live && !MustSkip(check, m) && m.body.Returns?
    ensures Told(check, m, Executed(check, m))
  {
    VerdictTold(check, m);
    EvidenceTold(check, m);
  }

  /** A check's own verdict survives, and every other case says what happened. */
  lemma ExecutedTold(check: Check, m: Meets)
    ensures Told(check, m, Executed(check, m))
  {
    if m.before == Live && !MustSkip(check, m) && m.body.Returns? { ReturnedTold(check, m); }
  }

  /** The part of runCheck that looks at the contexts after the body. */
  method Override(returned: CheckResult, check: Check, m: Meets) returns (result: CheckResult)
    ensures result == Overridden(returned, check, m)
  {
    result := returned;
    if m.after == Budget {
      result := result.(status := Skipped, errorCode := AuxiliaryBudget);
      result := result.(evidence := result.evidence
        + [Evidence(IDText(check.id) + ".auxiliary_budget", NO_ID, None, AuxiliaryBudget, map[])]);
    } else if m.after == Deadline {
      result := result.(status := Failed, errorCode := OperationTimeout);
    } else if m.after == Canceled {
      result := result.(status := Cancelled, errorCode := OperationCancelled);
    } else if m.timedOut {
      result := result.(status := Failed, errorCode := CheckTimeout);
      result := result.(evidence := WithTimeout(result.evidence, result.id,
        TimeoutDetails(result.id, result.name, m.budget, m.elapsed)));
    }
  }

  /** runCheck, step by step. */
  method RunCheck(check: Check, m: Meets) returns (result: CheckResult)
    ensures result == Executed(check, m)
    ensures Told(check, m, result)
  {
    ExecutedTold(check, m);
    if m.before != Live { return StoppedResult(check, m.started, m.before); }
    if m.hook.Some? {
      var skipped := SkipDirectCheck(m.hook.value, check);
      if skipped.Some? {
        result := skipped.value;
        if result.id == NO_ID { result := result.(id := check.id); }
        if result.name == "" { result := result.(name := check.name); }
        return Complete(result, m.started, m.finished);
      }
    }
    if m.body.Panics? { return Complete(PanicResult(check), m.started, m.finished); }
    result := m.body.result;
    if result.id == NO_ID { result := result.(id := check.id); }
    if result.name == "" { result := result.(name := check.name); }
    result := Override(result, check, m);
    if !Valid(result.status) || result.status == Pending || result.status == Running {
      result := result.(status := Failed);
      if result.errorCode == NO_CODE { result := result.(errorCode := InvalidResult); }
    }
    result := Complete(result, m.started, m.finished);
  }

  // ----- validateDiagnosis -----

  datatype Diagnosis = Diagnosis(
    idValid: bool, startedAt: int, finishedAt: int, duration: int, status: Status, checks: seq<CheckResult>)

  predicate StorableCheck(r: CheckResult) {
    && !Blank(r.id) && Final(r.status)
    && r.startedAt != 0 && r.finishedAt != 0 && r.startedAt <= r.finishedAt && r.duration >= 0
  }

  predicate Storable(d: Diagnosis) {
    && d.idValid && d.startedAt != 0 && d.finishedAt != 0 && d.startedAt <= d.finishedAt && d.duration >= 0
    && Final(d.status)
    && forall r | r in d.checks :: StorableCheck(r)
  }

  /** The validation loop of the store. */
  method ValidateDiagnosis(d: Diagnosis) returns (ok: bool)
    ensures ok <==> Storable(d)
    ensures ok <==>
      && d.idValid && 0 <= d.duration && d.startedAt != 0 && d.finishedAt != 0 && d.startedAt <= d.finishedAt
      && d.status in {Passed, Warning, Failed, Skipped, NotApplicable, Cancelled}
      && forall i | 0 <= i < |d.checks| ::
           var r := d.checks[i];
           && !(r.id.Named? && forall j | 0 <= j < |r.id.text| :: Space(r.id.text[j]))
           && r.status in {Passed, Warning, Failed, Skipped, NotApplicable, Cancelled}
           && r.startedAt != 0 && r.finishedAt != 0 && r.startedAt <= r.finishedAt && 0 <= r.duration
  {
    if !d.idValid || d.startedAt == 0 || d.finishedAt == 0 || d.finishedAt < d.startedAt || d.duration < 0
      || !Valid(d.status) || d.status == Pending || d.status == Running {
      return false;
    }
    for i := 0 to |d.checks|
      invariant forall j | 0 <= j < i :: StorableCheck(d.checks[j])
    {
      var r := d.checks[i];
      if Blank(r.id) || !Valid(r.status) || r.status == Pending || r.status == Running
        || r.startedAt == 0 || r.finishedAt == 0 || r.finishedAt < r.startedAt || r.duration < 0 {
        assert r in d.checks;
        return false;
      }
    }
    return true;
  }

  /** The clock reads of one check. */
  predicate Clocked(m: Meets) {
    0 < m.started <= m.finished
  }

  /** The ID a result ends up with: the body's own if it gave one. */
  function ResultID(check: Check, m: Meets): CheckID {
    if m.before != Live || HookSkips(check, m) || m.body.Panics? || m.body.result.id == NO_ID then check.id
    else m.body.result.id
  }

  /** Whatever a check does, its result has a terminal status and a consistent
      clock; it can be stored exactly when its ID is not blank. */
  lemma ExecutedStorable(check: Check, m: Meets)
    requires Clocked(m)
    ensures
      var r := Executed(check, m);
      && Final(r.status) && r.duration == r.finishedAt - r.startedAt && r.id == ResultID(check, m)
      && (StorableCheck(r) <==> !Blank(ResultID(check, m)))
  {
  }

  /** So a check can spoil storage only by returning whitespace as its ID, which
      the engine does not replace. */
  lemma BlankIDNotReplaced(check: Check, m: Meets)
    requires Clocked(m) && m.before == Live && !HookSkips(check, m) && m.body.Returns?
    requires m.body.result.id == Named(" ")
    ensures !StorableCheck(Executed(check, m))
  {
    assert Named(" ") != NO_ID;
    assert Blank(Named(" "));
  }

  /** A check that ran out of its own budget says so and states the budget. */
  lemma TimeoutIsEvident(check: Check, m: Meets)
    requires m.before == Live && !HookSkips(check, m) && m.body.Returns? && m.after == Live && m.timedOut
    ensures
      var r := Executed(check, m);
      && r.status == Failed && r.errorCode == CheckTimeout
      && exists i :: 0 <= i < |r.evidence| && r.evidence[i].code == CheckTimeout
           && "configuredBudget" in r.evidence[i].details && r.evidence[i].details["configuredBudget"] == m.budget
  {
    var b := Named0(m.body.result, check);
    var details := TimeoutDetails(b.id, b.name, m.budget, m.elapsed);
    var said := WithTimeout(b.evidence, b.id, details);
    var i :| 0 <= i < |said| && said[i].code == CheckTimeout && Carries(said[i].details, details);
    assert "configuredBudget" in details;
    var r := Executed(check, m);
    assert r.evidence[i] == Own(said[i], b.id);
  }

  // ----- every run is storable -----

  /** Diagnose's clock fields around results that later passes may decorate. */
  function Assemble(started: int, finished: int, checks: seq<CheckResult>): Diagnosis {
    Diagnosis(true, started, finished, finished - started, Summary.Decide(checks).0, checks)
  }

  /** Decorating a result leaves what the store validates alone. */
  predicate SameCore(r: CheckResult, d: CheckResult) {
    d.id == r.id && d.status == r.status && d.startedAt == r.startedAt && d.finishedAt == r.finishedAt
    && d.duration == r.duration
  }

  lemma AssembleStorable(started: int, finished: int, checks: seq<CheckResult>)
    requires 0 < started <= finished && forall r | r in checks :: StorableCheck(r)
    ensures Storable(Assemble(started, finished, checks))
  {
    SummaryTheorems.DecisionFinal(checks);
  }

  /** The result Diagnose builds itself when the target cannot be parsed. */
  function ParseFailure(started: int, finished: int, code: ErrorCode): CheckResult {
    Complete(CheckResult(Target, "Target validation", Failed, false, [], started, finished, 0, code,
                         [Evidence("target.invalid", Target, None, code, map[])]), started, finished)
  }

  lemma ParseFailureStorable(started: int, now: int, finished: int, code: ErrorCode)
    requires 0 < started <= now <= finished
    ensures Storable(Assemble(started, finished, [ParseFailure(started, now, code)]))
  {
    AssembleStorable(started, finished, [ParseFailure(started, now, code)]);
  }

  /** And such a run is reported as failed. */
  lemma ParseFailureFailed(r: CheckResult)
    requires r.id == Target && r.status == Failed
    ensures Summary.Decide([r]).0 == Failed
  {
    assert !Summary.HttpReached([r]);
    assert Summary.FactsOf([r]).http.None?;
    SummaryTheorems.NoFailureHidden([r], r);
  }

  // ----- marking auxiliary preflights -----

  function MarkOne(r: CheckResult, proxySelected: bool): CheckResult {
    if !Direct(r.id) then r
    else
      r.(auxiliary := true,
         evidence := r.evidence
           + [Evidence(IDText(r.id) + ".auxiliary_role", r.id, None, AuxiliaryComparison,
                       map["role" := "auxiliary_direct_comparison",
                           "route" := if proxySelected then "direct_origin_comparison" else "direct_origin_preflight"])])
  }

  /** markHTTPPreflightAuxiliary, in place. */
  method MarkAuxiliary(results: array<CheckResult>, proxySelected: bool)
    modifies results
    ensures forall i | 0 <= i < results.Length ::
      results[i] == MarkOne(old(results[i]), proxySelected) && SameCore(old(results[i]), results[i])
    ensures forall i | 0 <= i < results.Length :: results[i].auxiliary <==> Direct(results[i].id) || old(results[i]).auxiliary
  {
    for n := 0 to results.Length
      invariant forall i | 0 <= i < n :: results[i] == MarkOne(old(results[i]), proxySelected)
      invariant forall i | n <= i < results.Length :: results[i] == old(results[i])
    {
      results[n] := MarkOne(results[n], proxySelected);
    }
  }
}
