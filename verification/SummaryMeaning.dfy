/** What the words of the decision rules mean, spelled out over the recorded
    statuses, codes, IDs and evidence, and what the conclusions say about them. */
module SummaryMeaning {
  import opened Wrappers
  import opened Model
  import opened Summary
  import opened SummaryTheorems
  import opened SummaryTable

  // ----- the route of the request -----

  /** The route the HTTP result reports: that of its first response item. */
  predicate ReportsRoute(h: CheckResult, route: string) {
    || (exists j :: 0 <= j < |h.evidence| && FirstResponse(h.evidence, j)
          && route == if "route" in h.evidence[j].details then h.evidence[j].details["route"] else "")
    || (route == "" && forall j | 0 <= j < |h.evidence| :: h.evidence[j].id != "http.response")
  }

  predicate FirstResponse(evidence: seq<Evidence>, j: nat)
    requires j < |evidence|
  {
    evidence[j].id == "http.response" && forall i | 0 <= i < j :: evidence[i].id != "http.response"
  }

  lemma {:induction false} DetailIsFirst(evidence: seq<Evidence>)
    ensures
      var text := DetailByID(evidence, "http.response", "route");
      || (exists j :: 0 <= j < |evidence| && FirstResponse(evidence, j)
            && text == if "route" in evidence[j].details then evidence[j].details["route"] else "")
      || (text == "" && forall j | 0 <= j < |evidence| :: evidence[j].id != "http.response")
    decreases |evidence|
  {
    if evidence != [] {
      if evidence[0].id == "http.response" {
        assert FirstResponse(evidence, 0);
      } else {
        DetailIsFirst(evidence[1..]);
        if j :| 0 <= j < |evidence| - 1 && FirstResponse(evidence[1..], j) {
          assert evidence[1..][j] == evidence[j + 1];
          assert forall i | 1 <= i < j + 1 :: evidence[i] == evidence[1..][i - 1];
          assert FirstResponse(evidence, j + 1);
        }
        assert forall i | 1 <= i < |evidence| :: evidence[i] == evidence[1..][i - 1];
      }
    }
  }

  /** The environment check recorded that a proxy was selected. */
  predicate EnvironmentSelectsProxy(results: seq<CheckResult>) {
    exists i, j :: 0 <= i < |results| && IsFirst(results, i, Environment)
                && 0 <= j < |results[i].evidence| && results[i].evidence[j].code == ProxySelected
  }

  lemma EnvironmentSpelled(results: seq<CheckResult>)
    ensures EnvironmentSelectsProxy(results) <==>
            ByID(results, Environment).Some? && HasCode(ByID(results, Environment).value, ProxySelected)
  {
    if EnvironmentSelectsProxy(results) {
      var i, j :| 0 <= i < |results| && IsFirst(results, i, Environment)
                  && 0 <= j < |results[i].evidence| && results[i].evidence[j].code == ProxySelected;
      FirstIsByID(results, i, Environment);
    }
    var e := ByID(results, Environment);
    if e.Some? && HasCode(e.value, ProxySelected) {
      var i :| 0 <= i < |results| && IsFirst(results, i, Environment) && e.value == results[i];
      var j :| 0 <= j < |results[i].evidence| && results[i].evidence[j].code == ProxySelected;
    }
  }

  lemma FirstIsByID(results: seq<CheckResult>, i: nat, id: CheckID)
    requires i < |results| && IsFirst(results, i, id)
    ensures ByID(results, id) == Some(results[i])
  {
    assert results[i] in results;
    var k :| 0 <= k < |results| && IsFirst(results, k, id) && ByID(results, id).value == results[k];
    OneFirst(results, i, k, id);
  }

  lemma OneFirst(results: seq<CheckResult>, i: nat, k: nat, id: CheckID)
    requires i < |results| && k < |results| && IsFirst(results, i, id) && IsFirst(results, k, id)
    ensures i == k
  {
    assert results[i].id == results[k].id == id;
    assert forall j | 0 <= j < k :: results[j].id != id;
    assert forall j | 0 <= j < i :: results[j].id != id;
  }

  /** Whether the request went, or would have gone, through a proxy: as the HTTP
      result reports, or, when it reports no known route, as the environment check
      selected. */
  lemma ProxyUseSpelled(results: seq<CheckResult>)
    ensures ByID(results, Http).None? ==> (UsesProxy(results) <==> EnvironmentSelectsProxy(results))
    ensures ByID(results, Http).Some? ==>
      forall route | ReportsRoute(ByID(results, Http).value, route) ::
        UsesProxy(results) <==>
          route == "proxy" || route == "mixed"
          || (route != "direct" && route != "blocked_by_proxy_policy" && EnvironmentSelectsProxy(results))
  {
    EnvironmentSpelled(results);
    if ByID(results, Http).Some? {
      forall route | ReportsRoute(ByID(results, Http).value, route) ensures route == HttpRoute(results) {
        RouteIsReported(results, route);
      }
    }
  }

  lemma RouteIsReported(results: seq<CheckResult>, route: string)
    requires ByID(results, Http).Some? && ReportsRoute(ByID(results, Http).value, route)
    ensures route == HttpRoute(results)
  {
    DetailIsFirst(ByID(results, Http).value.evidence);
  }

  /** The wording of the HTTP conclusions: across mixed routes, through the proxy,
      or plain. */
  lemma RouteSpelled(results: seq<CheckResult>, route: string)
    requires ByID(results, Http).Some? && ReportsRoute(ByID(results, Http).value, route)
    ensures RouteVia(FactsOf(results)) ==
      if route == "mixed" then MixedRoutes
      else if route == "proxy" || (route == "" && EnvironmentSelectsProxy(results)) then ThroughProxy
      else Plain
  {
    RouteIsReported(results, route);
    ProxyUseSpelled(results);
  }

  // ----- which failures count -----

  predicate DirectOrAuxiliary(r: CheckResult) {
    r.auxiliary || r.id in {Dns, Route, Tcp, Tls}
  }

  predicate HttpPassedOrWarned(results: seq<CheckResult>) {
    exists i :: 0 <= i < |results| && IsFirst(results, i, Http)
             && (results[i].status == Passed || results[i].status == Warning)
  }

  lemma ReachedSpelled(results: seq<CheckResult>)
    ensures HttpReached(results) <==> HttpPassedOrWarned(results)
  {
    if HttpPassedOrWarned(results) {
      var i :| 0 <= i < |results| && IsFirst(results, i, Http)
               && (results[i].status == Passed || results[i].status == Warning);
      FirstIsByID(results, i, Http);
    }
  }

  const ORDER: seq<CheckID> := [Target, Environment, Dns, Route, Tcp, Tls, Http]

  /** a is a stage that comes after stage b. */
  predicate Above(a: CheckID, b: CheckID) {
    exists i, j :: 0 <= i < j < |ORDER| && ORDER[j] == a && ORDER[i] == b
  }

  lemma LayersSpelled(a: CheckID, b: CheckID)
    ensures CheckLayer(b) >= 0 && CheckLayer(a) > CheckLayer(b) <==> Above(a, b)
  {
    LayerIsPlace(a);
    LayerIsPlace(b);
    if CheckLayer(b) >= 0 && CheckLayer(a) > CheckLayer(b) {
      assert ORDER[CheckLayer(a)] == a && ORDER[CheckLayer(b)] == b;
    }
  }

  lemma LayerIsPlace(a: CheckID)
    ensures CheckLayer(a) < |ORDER| && forall i | 0 <= i < |ORDER| :: ORDER[i] == a <==> CheckLayer(a) == i
  {
  }

  /** A comparison probe beside the actual request. */
  predicate Comparison(results: seq<CheckResult>, r: CheckResult) {
    (exists i :: 0 <= i < |results| && results[i].id == Http)
    && (r.auxiliary || (UsesProxy(results) && r.id in {Dns, Route, Tcp, Tls}))
  }

  lemma ComparisonSpelled(results: seq<CheckResult>, r: CheckResult)
    ensures IsAuxiliaryPreflight(FactsOf(results), r) <==> Comparison(results, r)
  {
    if i :| 0 <= i < |results| && results[i].id == Http { assert results[i] in results; }
  }

  /** A time-out that a failure of a later stage explains. */
  predicate Explained(results: seq<CheckResult>, r: CheckResult) {
    r.errorCode == CheckTimeout
    && exists i :: 0 <= i < |results| && Above(results[i].id, r.id) && results[i].status == Failed
                && !Comparison(results, results[i])
  }

  lemma ExplainedSpelled(results: seq<CheckResult>, r: CheckResult)
    ensures CheckTimeoutSuperseded(FactsOf(results), r) <==> Explained(results, r)
  {
    forall c ensures SupersededBy(FactsOf(results), r, c) && CheckLayer(r.id) >= 0
      <==> c.status == Failed && !Comparison(results, c) && Above(c.id, r.id)
    {
      ComparisonSpelled(results, c);
      LayersSpelled(c.id, r.id);
    }
    if CheckTimeoutSuperseded(FactsOf(results), r) {
      var c :| c in results && SupersededBy(FactsOf(results), r, c);
      var i :| 0 <= i < |results| && results[i] == c;
    }
  }

  /** A failure or time-out counts unless the actual request contradicts it, it is a
      comparison probe, or a failure of a later stage explains it. */
  lemma RelevantSpelled(results: seq<CheckResult>, r: CheckResult)
    ensures Relevant(FactsOf(results), r) <==>
      && !(HttpPassedOrWarned(results) && r.status == Failed && DirectOrAuxiliary(r))
      && !Comparison(results, r) && !Explained(results, r)
  {
    ReachedSpelled(results);
    ComparisonSpelled(results, r);
    ExplainedSpelled(results, r);
  }

  // ----- the questions of the rules -----

  lemma QuestionsSpelled(results: seq<CheckResult>, r: CheckResult)
    ensures
      var f := FactsOf(results);
      && (Holds(f, AskOperationTimeout, r) <==> r.errorCode == OperationTimeout)
      && (Holds(f, AskRelevantTimeout, r) <==> r.errorCode == CheckTimeout && Relevant(f, r))
      && (Holds(f, AskRelevantFailure, r) <==> r.status == Failed && Relevant(f, r))
      && (Holds(f, AskProxyInvalid, r) <==>
            r.errorCode == ProxyConfigInvalid
            || exists j :: 0 <= j < |r.evidence| && r.evidence[j].code == ProxyConfigInvalid)
      && (Holds(f, AskCancelled, r) <==> r.status == Cancelled)
      && (Holds(f, AskWarning, r) <==> r.status == Warning && !Comparison(results, r))
      && (Holds(f, AskPassed, r) <==> r.status == Passed)
  {
    ComparisonSpelled(results, r);
  }

  /** A proxy was switched off and the connection got through without it. */
  lemma ProxyOffSpelled(results: seq<CheckResult>)
    ensures ProxyOff(FactsOf(results)) <==>
      && (exists e :: ByID(results, Environment) == Some(e)
            && exists j :: 0 <= j < |e.evidence| && e.evidence[j].code == ProxyDisabled)
      && (HttpPassedOrWarned(results)
          || (ByID(results, Http).None? && ByID(results, Tcp).Some? && ByID(results, Tcp).value.status in {Passed, Warning}))
  {
    ReachedSpelled(results);
  }

  lemma WholeListSpelled(results: seq<CheckResult>)
    ensures AllWith(results, NotApplicable) <==> |results| > 0 && forall i | 0 <= i < |results| :: results[i].status == NotApplicable
    ensures OnlySkipped(results) <==>
      && (forall i | 0 <= i < |results| :: results[i].status == Skipped || results[i].status == NotApplicable)
      && (exists i :: 0 <= i < |results| && results[i].status == Skipped)
  {
  }

  lemma TaintedSpelled(results: seq<CheckResult>)
    ensures FactsOf(results).preflightFailures != [] <==>
      HttpPassedOrWarned(results) && exists i :: 0 <= i < |results| && results[i].status == Failed && DirectOrAuxiliary(results[i])
  {
    ReachedSpelled(results);
    FailedPreflightMembers(results);
    if FailedPreflights(results) != [] {
      var r := FailedPreflights(results)[0];
      assert r in FailedPreflights(results);
      var i :| 0 <= i < |results| && results[i] == r;
    }
    if i :| 0 <= i < |results| && results[i].status == Failed && DirectOrAuxiliary(results[i]) {
      assert results[i] in FailedPreflights(results);
    }
  }

  // ----- what a conclusion says about the families -----

  /** The level a decision was read at, or none. */
  lemma {:induction false} ReadLevel(f: Facts, n: nat) returns (m: nat)
    ensures n <= m
    ensures m < LEVELS ==> Applies(f, m) && Read(f, n) == Says(f, m)
    ensures m >= LEVELS ==> Read(f, n) == (Passed, Completed)
    decreases LEVELS - n
  {
    m := n;
    if n < LEVELS && !Applies(f, n) { m := ReadLevel(f, n + 1); }
  }

  lemma FamilyLevel(f: Facts, m: nat)
    requires m < LEVELS && Applies(f, m) && Says(f, m).1 in {OnlyIPv4Works, OnlyIPv6Works}
    ensures m == 16
  {
  }

  predicate FamilyAttempt(r: CheckResult, family: string, success: bool) {
    exists j :: 0 <= j < |r.evidence| && AttemptItem(r.evidence[j], family, success)
  }

  /** A TCP warning with a successful attempt over one family and failed ones only
      over the other. */
  predicate OnlyWorks(results: seq<CheckResult>, good: string, bad: string) {
    var tcp := ByID(results, Tcp);
    && tcp.Some? && tcp.value.status == Warning
    && FamilyAttempt(tcp.value, good, true) && FamilyAttempt(tcp.value, bad, false) && !FamilyAttempt(tcp.value, bad, true)
  }

  lemma FamilyLevelSpelled(f: Facts)
    requires Applies(f, 16)
    ensures Says(f, 16).1 == OnlyIPv4Works ==> OnlyWorks(f.results, "ipv4", "ipv6")
    ensures Says(f, 16).1 == OnlyIPv6Works ==> OnlyWorks(f.results, "ipv6", "ipv4")
  {
    var tcp := ByID(f.results, Tcp);
    assert tcp.Some? && tcp.value.status == Warning && OneFamilyOnly(tcp.value);
    FamiliesWork(tcp.value);
    assert Says(f, 16).1 == if FamiliesOf(tcp.value.evidence).v4Success then OnlyIPv4Works else OnlyIPv6Works;
  }

  lemma FamiliesWork(r: CheckResult)
    requires OneFamilyOnly(r)
    ensures if FamiliesOf(r.evidence).v4Success
      then FamilyAttempt(r, "ipv4", true) && FamilyAttempt(r, "ipv6", false) && !FamilyAttempt(r, "ipv6", true)
      else FamilyAttempt(r, "ipv6", true) && FamilyAttempt(r, "ipv4", false) && !FamilyAttempt(r, "ipv4", true)
  {
    FamiliesSpelled(r.evidence);
  }

  /** A conclusion that only one family works rests on just that. */
  lemma OneFamilyConclusion(results: seq<CheckResult>)
    ensures Decide(results).1 == OnlyIPv4Works ==> OnlyWorks(results, "ipv4", "ipv6")
    ensures Decide(results).1 == OnlyIPv6Works ==> OnlyWorks(results, "ipv6", "ipv4")
  {
    var f := FactsOf(results);
    DecisionTable(results);
    if Read(f, 0).1 in {OnlyIPv4Works, OnlyIPv6Works} { FamilyConclusion(f); }
  }

  lemma FamilyConclusion(f: Facts)
    requires Read(f, 0).1 in {OnlyIPv4Works, OnlyIPv6Works}
    ensures Read(f, 0).1 == OnlyIPv4Works ==> OnlyWorks(f.results, "ipv4", "ipv6")
    ensures Read(f, 0).1 == OnlyIPv6Works ==> OnlyWorks(f.results, "ipv6", "ipv4")
  {
    var m := ReadLevel(f, 0);
    FamilyLevel(f, m);
    FamilyLevelSpelled(f);
  }

  // ----- what a conclusion is drawn from -----

  /** The result that a level about one check is about. */
  predicate About(f: Facts, n: nat, r: CheckResult) {
    match n
    case 0 => r.errorCode == OperationTimeout
    case 1 => r.errorCode == CheckTimeout && Relevant(f, r)
    case 2 => r.id == Target && r.status == Failed
    case 5 => r.id == Tls && r.status == Failed
    case 6 => r.id == Dns && r.status == Failed
    case 7 => r.id == Tcp && r.status == Failed
    case 8 => r.id == Tls && r.status == Failed
    case 10 => r.status == Failed && Relevant(f, r)
    case 11 => r.status == Cancelled
    case 15 => r.id == Tls
    case 16 => r.id == Tcp && r.status == Warning
    case 17 => r.id == Environment
    case 18 => r.id == Tcp && r.status == Warning
    case 19 => r.id == Environment
    case 20 => r.status == Warning
    case 21 => r.id == Http && r.status == Passed
    case 24 => r.status == Passed
    case _ => false
  }

  /** The levels about the request cite it, the environment check when a proxy is
      involved, and every preflight that contradicts it; nothing else. */
  predicate AboutRequest(f: Facts, rs: seq<CheckResult>) {
    && f.http.Some? && f.http.value in rs
    && (forall r | r in f.preflightFailures :: r in rs)
    && (RouteVia(f) != Plain && f.proxy.Some? ==> f.proxy.value in rs)
    && (forall r | r in rs :: r == f.http.value || r in f.preflightFailures || (RouteVia(f) != Plain && f.proxy == Some(r)))
  }

  /** A candidate cites the results that its level of the table is about. */
  ghost predicate CitesLevel(f: Facts, c: Candidate) {
    var n := Level(c);
    if n == 3 then
      c.results != [] && forall r :: r in c.results <==> r in f.results && ProxyInvalidResult(r)
    else if n in {4, 9, 12, 13, 14} then AboutRequest(f, c.results)
    else if n == 22 || n == 23 then c.results == f.results && c.results != []
    else |c.results| == 1 && About(f, n, c.results[0])
  }

  lemma ObservationCites(f: Facts, n: nat, c: Candidate)
    requires n < 5 && c in SpecificPiece(f, n)
    ensures CitesLevel(f, c)
  {
    if n == 3 { assert c.results == Filter(f, AskProxyInvalid, f.results); }
  }

  lemma TcpCites(f: Facts, c: Candidate)
    requires c in TcpPiece(f)
    ensures CitesLevel(f, c)
  {
    assert c.results == [ByID(f.results, Tcp).value];
    if c.severity == Degraded { assert Level(c) == 16 || Level(c) == 18; } else { assert Level(c) == 7; }
  }

  lemma TlsCites(f: Facts, c: Candidate)
    requires c in TlsPiece(f)
    ensures CitesLevel(f, c)
  {
    assert c.results == [ByID(f.results, Tls).value];
    if c.severity == Degraded { assert Level(c) == 15; } else { assert Level(c) == 5 || Level(c) == 8; }
  }

  lemma RequestCites(f: Facts, c: Candidate)
    requires f.http == ByID(f.results, Http) && c in HttpPiece(f)
    ensures CitesLevel(f, c)
  {
    RequestLevels(f, c);
    RelatedAreRequest(f);
  }

  lemma RequestLevels(f: Facts, c: Candidate)
    requires c in HttpPiece(f)
    ensures (Level(c) in {4, 9, 12, 13, 14} && c.results == RelatedTo(f, f.http.value))
            || (Level(c) == 21 && c.results == [f.http.value] && f.http.value.status == Passed)
  {
  }

  lemma RelatedAreRequest(f: Facts)
    requires f.http.Some?
    ensures AboutRequest(f, RelatedTo(f, f.http.value))
  {
  }

  lemma ListCites(f: Facts, n: nat, c: Candidate)
    requires n in {8, 9, 11} && c in GeneralPiece(f, n)
    ensures CitesLevel(f, c)
  {
  }

  lemma ProxyCites(f: Facts, c: Candidate)
    requires f.proxy == ByID(f.results, Environment) && c in ProxyPiece(f)
    ensures CitesLevel(f, c)
  {
    assert c.results == [f.proxy.value];
    assert Level(c) == 17 || Level(c) == 19;
  }

  lemma OutcomeCites(f: Facts, c: Candidate)
    requires c in OutcomePiece(f)
    ensures CitesLevel(f, c)
  {
  }

  lemma SpecificCites(f: Facts, n: nat, c: Candidate)
    requires n < 7 && c in SpecificPiece(f, n)
    ensures CitesLevel(f, c)
  {
    if n < 5 { ObservationCites(f, n, c); } else if n == 5 { TcpCites(f, c); } else { TlsCites(f, c); }
  }

  lemma GeneralCites(f: Facts, n: nat, c: Candidate)
    requires f.http == ByID(f.results, Http) && f.proxy == ByID(f.results, Environment)
    requires 7 <= n < 13 && c in GeneralPiece(f, n)
    ensures CitesLevel(f, c)
  {
    if n == 7 { RequestCites(f, c); }
    else if n == 10 { ProxyCites(f, c); }
    else if n == 12 { OutcomeCites(f, c); }
    else { ListCites(f, n, c); }
  }

  /** So the conclusion is drawn from, refers to and is about the right results. */
  lemma CandidateCites(results: seq<CheckResult>, c: Candidate)
    requires c in Candidates(FactsOf(results))
    ensures CitesLevel(FactsOf(results), c)
  {
    var n := InSomePiece(FactsOf(results), c);
    if n < 7 { SpecificCites(FactsOf(results), n, c); } else { GeneralCites(FactsOf(results), n, c); }
  }
}
