/** The decision procedure that turns check results into one conclusion. */
module Summary {
  import opened Wrappers
  import opened Model

  datatype Severity = Informational | Degraded | Interrupted | Blocker

  /** One constructor per conclusion the source can publish: it stands for the
      title together with the recommendation text that goes with that title. */
  datatype Verdict =
    | Completed | TimedOut | CheckTimedOut | InvalidTarget | ProxyInvalid | DnsFailed
    | OnlyIPv4Works | OnlyIPv6Works | MixedTcp | TcpFailed | TcpConnectionsRefused | TcpConnectionsTimedOut
    | CertificateExpired | HostnameMismatch | ChainUntrusted | CertificateNotYetValid | NegotiationFailed
    | RedirectsFailed(via: Via) | ClientError(via: Via) | ServerError(via: Via)
    | Reached(via: Via) | ReachedDespitePreflight | ReachedWithWarnings(via: Via) | TransportFailed(via: Via)
    | FailureDetected | RunCancelled | DirectWorksWithoutProxy | ProxyWasSelected | CompletedWithWarnings
    | NothingApplicable | ApplicableSkipped

  datatype Via = Plain | ThroughProxy | MixedRoutes

  datatype Candidate = Candidate(
    severity: Severity, priority: nat, status: Status, verdict: Verdict, results: seq<CheckResult>)

  datatype Facts = Facts(
    results: seq<CheckResult>, proxy: Option<CheckResult>, http: Option<CheckResult>,
    proxySelected: bool, route: string, httpReached: bool, preflightFailures: seq<CheckResult>)

  datatype Conclusion = Conclusion(status: Status, verdict: Verdict, references: seq<string>, checkID: Option<CheckID>)

  // ----- pure questions about results -----

  predicate HasCode(r: CheckResult, code: ErrorCode) {
    exists j :: 0 <= j < |r.evidence| && r.evidence[j].code == code
  }

  function DetailByID(evidence: seq<Evidence>, id: string, key: string): string {
    if evidence == [] then ""
    else if evidence[0].id == id then Detail(evidence[0], key)
    else DetailByID(evidence[1..], id, key)
  }

  predicate IsPreflight(r: CheckResult) {
    r.auxiliary || r.id == Dns || r.id == Route || r.id == Tcp || r.id == Tls
  }

  predicate IsPreflightDiscrepancy(f: Facts, r: CheckResult) {
    f.httpReached && r.status == Failed && IsPreflight(r)
  }

  predicate IsAuxiliaryPreflight(f: Facts, r: CheckResult) {
    f.http.Some? && (r.auxiliary || (f.proxySelected && IsPreflight(r)))
  }

  function CheckLayer(id: CheckID): int {
    match id
    case Target => 0
    case Environment => 1
    case Dns => 2
    case Route => 3
    case Tcp => 4
    case Tls => 5
    case Http => 6
    case Named(_) => -1
  }

  predicate SupersededBy(f: Facts, r: CheckResult, c: CheckResult) {
    c.status == Failed && !IsAuxiliaryPreflight(f, c) && CheckLayer(c.id) > CheckLayer(r.id)
  }

  predicate CheckTimeoutSuperseded(f: Facts, r: CheckResult) {
    && r.errorCode == CheckTimeout && CheckLayer(r.id) >= 0
    && exists c :: c in f.results && SupersededBy(f, r, c)
  }

  predicate Relevant(f: Facts, r: CheckResult) {
    !IsPreflightDiscrepancy(f, r) && !IsAuxiliaryPreflight(f, r) && !CheckTimeoutSuperseded(f, r)
  }

  predicate ProxyInvalidResult(r: CheckResult) {
    r.errorCode == ProxyConfigInvalid || HasCode(r, ProxyConfigInvalid)
  }

  predicate Succeeded(s: Status) {
    s == Passed || s == Warning
  }

  predicate TransportPassed(results: seq<CheckResult>) {
    match ByID(results, Http)
    case Some(h) => Succeeded(h.status)
    case None =>
      match ByID(results, Tcp)
      case Some(t) => Succeeded(t.status)
      case None => false
  }

  // ----- IP families of the TCP attempts -----

  datatype Families = Families(v4Success: bool, v4Failure: bool, v6Success: bool, v6Failure: bool)

  /** strings.EqualFold against the word true. */
  predicate SaysTrue(s: string) {
    && |s| == 4 && s[0] in {'t', 'T'} && s[1] in {'r', 'R'} && s[2] in {'u', 'U'} && s[3] in {'e', 'E'}
  }

  predicate Attempted(evidence: seq<Evidence>, family: string, success: bool) {
    exists j :: 0 <= j < |evidence| && AttemptOf(evidence[j], family, success)
  }

  predicate AttemptOf(e: Evidence, family: string, success: bool) {
    e.code == TcpAttempt && Detail(e, "family") == family && SaysTrue(Detail(e, "success")) == success
  }

  function FamiliesOf(evidence: seq<Evidence>): Families {
    Families(Attempted(evidence, "ipv4", true), Attempted(evidence, "ipv4", false),
             Attempted(evidence, "ipv6", true), Attempted(evidence, "ipv6", false))
  }

  /** A TCP attempt over a family that succeeded, or one that failed. */
  predicate AttemptItem(e: Evidence, family: string, success: bool) {
    && e.code == TcpAttempt && "family" in e.details && e.details["family"] == family
    && (success <==>
          "success" in e.details && |e.details["success"]| == 4
          && forall i | 0 <= i < 4 :: e.details["success"][i] == "true"[i] || e.details["success"][i] == "TRUE"[i])
  }

  lemma AttemptItems(evidence: seq<Evidence>, family: string, success: bool)
    requires family != ""
    ensures Attempted(evidence, family, success)
            <==> exists j :: 0 <= j < |evidence| && AttemptItem(evidence[j], family, success)
  {
    forall j | 0 <= j < |evidence|
      ensures AttemptOf(evidence[j], family, success) <==> AttemptItem(evidence[j], family, success)
    {
      TruthSpelled(Detail(evidence[j], "success"));
    }
  }

  lemma TruthSpelled(s: string)
    ensures SaysTrue(s) <==> |s| == 4 && forall i | 0 <= i < 4 :: s[i] == "true"[i] || s[i] == "TRUE"[i]
  {
    if |s| == 4 && forall i | 0 <= i < 4 :: s[i] == "true"[i] || s[i] == "TRUE"[i] {
      assert s[0] == "true"[0] || s[0] == "TRUE"[0];
      assert s[1] == "true"[1] || s[1] == "TRUE"[1];
      assert s[2] == "true"[2] || s[2] == "TRUE"[2];
      assert s[3] == "true"[3] || s[3] == "TRUE"[3];
    }
  }

  /** The four outcomes, each in terms of the attempts that are recorded. */
  lemma FamiliesSpelled(evidence: seq<Evidence>)
    ensures
      var out := FamiliesOf(evidence);
      && (out.v4Success <==> exists j :: 0 <= j < |evidence| && AttemptItem(evidence[j], "ipv4", true))
      && (out.v4Failure <==> exists j :: 0 <= j < |evidence| && AttemptItem(evidence[j], "ipv4", false))
      && (out.v6Success <==> exists j :: 0 <= j < |evidence| && AttemptItem(evidence[j], "ipv6", true))
      && (out.v6Failure <==> exists j :: 0 <= j < |evidence| && AttemptItem(evidence[j], "ipv6", false))
  {
    AttemptItems(evidence, "ipv4", true);
    AttemptItems(evidence, "ipv4", false);
    AttemptItems(evidence, "ipv6", true);
    AttemptItems(evidence, "ipv6", false);
  }

  method TcpFamilies(r: CheckResult) returns (out: Families)
    ensures out == FamiliesOf(r.evidence)
    ensures out.v4Success <==> exists j :: 0 <= j < |r.evidence| && AttemptItem(r.evidence[j], "ipv4", true)
    ensures out.v4Failure <==> exists j :: 0 <= j < |r.evidence| && AttemptItem(r.evidence[j], "ipv4", false)
    ensures out.v6Success <==> exists j :: 0 <= j < |r.evidence| && AttemptItem(r.evidence[j], "ipv6", true)
    ensures out.v6Failure <==> exists j :: 0 <= j < |r.evidence| && AttemptItem(r.evidence[j], "ipv6", false)
  {
    out := Families(false, false, false, false);
    for n := 0 to |r.evidence|
      invariant out == FamiliesOf(r.evidence[..n])
    {
      var e := r.evidence[n];
      AttemptedExtends(r.evidence, n);
      if e.code != TcpAttempt { continue; }
      var success := SaysTrue(Detail(e, "success"));
      if Detail(e, "family") == "ipv4" {
        out := out.(v4Success := out.v4Success || success, v4Failure := out.v4Failure || !success);
      } else if Detail(e, "family") == "ipv6" {
        out := out.(v6Success := out.v6Success || success, v6Failure := out.v6Failure || !success);
      }
    }
    assert r.evidence[..|r.evidence|] == r.evidence;
    FamiliesSpelled(r.evidence);
  }

  lemma AttemptedExtends(evidence: seq<Evidence>, n: nat)
    requires n < |evidence|
    ensures forall family: string, success: bool ::
      Attempted(evidence[..n+1], family, success) <==>
      Attempted(evidence[..n], family, success) || AttemptOf(evidence[n], family, success)
  {
    forall family: string, success: bool
      ensures Attempted(evidence[..n+1], family, success) <==>
              Attempted(evidence[..n], family, success) || AttemptOf(evidence[n], family, success)
    {
      assert evidence[..n+1][n] == evidence[n];
      if Attempted(evidence[..n], family, success) {
        var j :| 0 <= j < n && AttemptOf(evidence[..n][j], family, success);
        assert AttemptOf(evidence[..n+1][j], family, success);
      }
      if Attempted(evidence[..n+1], family, success) {
        var j :| 0 <= j < n + 1 && AttemptOf(evidence[..n+1][j], family, success);
        if j < n { assert AttemptOf(evidence[..n][j], family, success); }
      }
    }
  }

  // ----- facts -----

  function HttpRoute(results: seq<CheckResult>): string {
    match ByID(results, Http)
    case None => ""
    case Some(h) => DetailByID(h.evidence, "http.response", "route")
  }

  predicate UsesProxy(results: seq<CheckResult>) {
    var route := HttpRoute(results);
    if route == "proxy" || route == "mixed" then true
    else if route == "direct" || route == "blocked_by_proxy_policy" then false
    else
      match ByID(results, Environment)
      case None => false
      case Some(p) => HasCode(p, ProxySelected)
  }

  predicate HttpReached(results: seq<CheckResult>) {
    match ByID(results, Http)
    case None => false
    case Some(h) => Succeeded(h.status)
  }

  function FailedPreflights(results: seq<CheckResult>): seq<CheckResult> {
    if results == [] then []
    else
      var n := |results| - 1;
      FailedPreflights(results[..n])
      + (if IsPreflight(results[n]) && results[n].status == Failed then [results[n]] else [])
  }

  function FactsOf(results: seq<CheckResult>): Facts {
    Facts(results, ByID(results, Environment), ByID(results, Http), UsesProxy(results), HttpRoute(results),
          HttpReached(results), if HttpReached(results) then FailedPreflights(results) else [])
  }

  method CollectFacts(results: seq<CheckResult>) returns (facts: Facts)
    ensures facts == FactsOf(results)
  {
    facts := Facts(results, ByID(results, Environment), ByID(results, Http), false, "", false, []);
    if facts.proxy.Some? && HasCode(facts.proxy.value, ProxySelected) {
      facts := facts.(proxySelected := true);
    }
    if facts.http.Some? {
      facts := facts.(route := DetailByID(facts.http.value.evidence, "http.response", "route"));
      if facts.route == "proxy" || facts.route == "mixed" {
        facts := facts.(proxySelected := true);
      } else if facts.route == "direct" || facts.route == "blocked_by_proxy_policy" {
        facts := facts.(proxySelected := false);
      }
    }
    facts := facts.(httpReached := facts.http.Some? && Succeeded(facts.http.value.status));
    if facts.httpReached {
      var failures := [];
      for n := 0 to |results|
        invariant failures == FailedPreflights(results[..n])
      {
        assert results[..n+1][..n] == results[..n];
        if IsPreflight(results[n]) && results[n].status == Failed {
          failures := failures + [results[n]];
        }
      }
      assert results[..|results|] == results;
      facts := facts.(preflightFailures := failures);
    }
  }

  // ----- candidates -----

  function Block(priority: nat, verdict: Verdict, results: seq<CheckResult>): Candidate {
    Candidate(Blocker, priority, Failed, verdict, results)
  }

  function Degrade(priority: nat, verdict: Verdict, results: seq<CheckResult>): Candidate {
    Candidate(Degraded, priority, Warning, verdict, results)
  }

  /** The questions the rules ask of one result while they scan the list. */
  datatype Ask =
    | AskOperationTimeout | AskRelevantTimeout | AskProxyInvalid | AskRelevantFailure
    | AskCancelled | AskWarning | AskPassed

  predicate Holds(f: Facts, ask: Ask, r: CheckResult) {
    match ask
    case AskOperationTimeout => r.errorCode == OperationTimeout
    case AskRelevantTimeout => r.errorCode == CheckTimeout && Relevant(f, r)
    case AskProxyInvalid => ProxyInvalidResult(r)
    case AskRelevantFailure => r.status == Failed && Relevant(f, r)
    case AskCancelled => r.status == Cancelled
    case AskWarning => r.status == Warning && !IsAuxiliaryPreflight(f, r)
    case AskPassed => r.status == Passed
  }

  function First(f: Facts, ask: Ask, results: seq<CheckResult>): (r: Option<CheckResult>)
    ensures r.Some? ==> r.value in results && Holds(f, ask, r.value)
    ensures r.None? ==> forall x | x in results :: !Holds(f, ask, x)
  {
    if results == [] then None
    else if Holds(f, ask, results[0]) then Some(results[0])
    else First(f, ask, results[1..])
  }

  function Last(f: Facts, ask: Ask, results: seq<CheckResult>): (r: Option<CheckResult>)
    ensures r.Some? ==> r.value in results && Holds(f, ask, r.value)
    ensures r.None? ==> forall x | x in results :: !Holds(f, ask, x)
  {
    if results == [] then None
    else if Holds(f, ask, results[|results|-1]) then Some(results[|results|-1])
    else Last(f, ask, results[..|results|-1])
  }

  /** The results a loop over the list picks out, in order. */
  function Filter(f: Facts, ask: Ask, results: seq<CheckResult>): (r: seq<CheckResult>)
    ensures forall x :: x in r <==> x in results && Holds(f, ask, x)
    ensures r != [] ==> r[0] in results && Holds(f, ask, r[0])
  {
    if results == [] then []
    else
      var n := |results| - 1;
      Filter(f, ask, results[..n]) + (if Holds(f, ask, results[n]) then [results[n]] else [])
  }

  /** The candidates of a rule that adds one per result it picks out. */
  function Each(f: Facts, ask: Ask, results: seq<CheckResult>, c: Candidate): (cs: seq<Candidate>)
    ensures forall d | d in cs ::
      |d.results| == 1 && d.results[0] in results && Holds(f, ask, d.results[0]) && d == c.(results := d.results)
    ensures cs == [] ==> forall x | x in results :: !Holds(f, ask, x)
  {
    if results == [] then []
    else
      var n := |results| - 1;
      Each(f, ask, results[..n], c) + (if Holds(f, ask, results[n]) then [c.(results := [results[n]])] else [])
  }

  function OperationTimeoutPiece(f: Facts): seq<Candidate> {
    match First(f, AskOperationTimeout, f.results)
    case Some(r) => [Block(1000, TimedOut, [r])]
    case None => []
  }

  function CheckTimeoutPiece(f: Facts): seq<Candidate> {
    match First(f, AskRelevantTimeout, f.results)
    case Some(r) => [Block(950, CheckTimedOut, [r])]
    case None => []
  }

  function TargetPiece(f: Facts): seq<Candidate> {
    match ByID(f.results, Target)
    case Some(r) => if r.status == Failed then [Block(900, InvalidTarget, [r])] else []
    case None => []
  }

  function ProxyInvalidPiece(f: Facts): seq<Candidate> {
    var invalid := Filter(f, AskProxyInvalid, f.results);
    if invalid == [] then [] else [Block(875, ProxyInvalid, invalid)]
  }

  function DnsPiece(f: Facts): seq<Candidate> {
    match ByID(f.results, Dns)
    case Some(r) => if r.status == Failed && Relevant(f, r) then [Block(700, DnsFailed, [r])] else []
    case None => []
  }

  function TcpFailure(code: ErrorCode): Verdict {
    if code == TcpRefused then TcpConnectionsRefused
    else if code == TcpTimeout then TcpConnectionsTimedOut
    else if code == TcpOther then MixedTcp
    else TcpFailed
  }

  function TcpPiece(f: Facts): seq<Candidate> {
    match ByID(f.results, Tcp)
    case None => []
    case Some(r) =>
      var families := FamiliesOf(r.evidence);
      if IsAuxiliaryPreflight(f, r) then []
      else if r.status == Warning && families.v4Success && families.v6Failure && !families.v6Success then
        [Degrade(700, OnlyIPv4Works, [r])]
      else if r.status == Warning && families.v6Success && families.v4Failure && !families.v4Success then
        [Degrade(700, OnlyIPv6Works, [r])]
      else if r.status == Warning then [Degrade(600, MixedTcp, [r])]
      else if r.status == Failed && !IsPreflightDiscrepancy(f, r) && !CheckTimeoutSuperseded(f, r) then
        [Block(650, TcpFailure(r.errorCode), [r])]
      else []
  }

  function TlsVerdict(code: ErrorCode): Verdict {
    if code == TlsExpired then CertificateExpired
    else if code == TlsHostname then HostnameMismatch
    else if code == TlsAuthority then ChainUntrusted
    else if code == TlsNotYetValid then CertificateNotYetValid
    else NegotiationFailed
  }

  function TlsPiece(f: Facts): seq<Candidate> {
    match ByID(f.results, Tls)
    case None => []
    case Some(r) =>
      if IsAuxiliaryPreflight(f, r) then []
      else if r.status == Failed && (IsPreflightDiscrepancy(f, r) || CheckTimeoutSuperseded(f, r)) then []
      else if TlsVerdict(r.errorCode) == NegotiationFailed && r.status != Failed then []
      else
        [Candidate(if r.status == Failed then Blocker else Degraded,
                   if TlsVerdict(r.errorCode) == NegotiationFailed then 600 else 800,
                   r.status, TlsVerdict(r.errorCode), [r])]
  }

  function RouteVia(f: Facts): Via {
    if f.route == "mixed" then MixedRoutes
    else if f.route == "proxy" || (f.route == "" && f.proxySelected) then ThroughProxy
    else Plain
  }

  function RelatedTo(f: Facts, h: CheckResult): seq<CheckResult> {
    (if RouteVia(f) != Plain && f.proxy.Some? then [f.proxy.value, h] else [h]) + f.preflightFailures
  }

  function HttpPiece(f: Facts): seq<Candidate> {
    match f.http
    case None => []
    case Some(h) =>
      var via, related := RouteVia(f), RelatedTo(f, h);
      if h.errorCode == HttpRedirectLoop || h.errorCode == HttpTooManyRedirects then
        [Block(850, RedirectsFailed(via), related)]
      else if h.errorCode == HttpClientError then [Degrade(900, ClientError(via), related)]
      else if h.errorCode == HttpServerError then [Degrade(900, ServerError(via), related)]
      else if h.status == Passed then
        if via != Plain then [Degrade(950, Reached(via), related)]
        else if f.preflightFailures != [] then [Degrade(950, ReachedDespitePreflight, related)]
        else [Candidate(Informational, 100, Passed, Completed, [h])]
      else if h.status == Warning then [Degrade(850, ReachedWithWarnings(via), related)]
      else if h.status == Failed && h.errorCode != ProxyConfigInvalid then [Block(550, TransportFailed(via), related)]
      else []
  }

  function FailurePiece(f: Facts): seq<Candidate> {
    Each(f, AskRelevantFailure, f.results, Block(100, FailureDetected, []))
  }

  function CancelledPiece(f: Facts): seq<Candidate> {
    match First(f, AskCancelled, f.results)
    case Some(r) => [Candidate(Interrupted, 500, Cancelled, RunCancelled, [r])]
    case None => []
  }

  function ProxyPiece(f: Facts): seq<Candidate> {
    match f.proxy
    case None => []
    case Some(p) =>
      if HasCode(p, ProxyDisabled) && TransportPassed(f.results) then [Degrade(650, DirectWorksWithoutProxy, [p])]
      else if f.proxySelected && f.http.None? then [Degrade(400, ProxyWasSelected, [p])]
      else []
  }

  function WarningPiece(f: Facts): seq<Candidate> {
    Each(f, AskWarning, f.results, Degrade(50, CompletedWithWarnings, []))
  }

  predicate AllWith(results: seq<CheckResult>, status: Status) {
    results != [] && forall r | r in results :: r.status == status
  }

  predicate OnlySkipped(results: seq<CheckResult>) {
    && (forall r | r in results :: r.status == Skipped || r.status == NotApplicable)
    && (exists r :: r in results && r.status == Skipped)
  }

  function OutcomePiece(f: Facts): seq<Candidate> {
    if AllWith(f.results, NotApplicable) then
      [Candidate(Informational, 25, NotApplicable, NothingApplicable, f.results)]
    else if OnlySkipped(f.results) then
      [Candidate(Informational, 20, Skipped, ApplicableSkipped, f.results)]
    else
      match Last(f, AskPassed, f.results)
      case Some(r) => [Candidate(Informational, 10, Passed, Completed, [r])]
      case None => []
  }

  /** All candidates in the order the source appends them. */
  function Candidates(f: Facts): seq<Candidate> {
    SpecificCandidates(f) + GeneralCandidates(f)
  }

  /** The rules about one stage or one observation. */
  function SpecificCandidates(f: Facts): seq<Candidate> {
    OperationTimeoutPiece(f) + CheckTimeoutPiece(f) + TargetPiece(f) + ProxyInvalidPiece(f) + DnsPiece(f)
    + TcpPiece(f) + TlsPiece(f)
  }

  /** The HTTP rules and the rules about the list as a whole. */
  function GeneralCandidates(f: Facts): seq<Candidate> {
    HttpPiece(f) + FailurePiece(f) + CancelledPiece(f) + ProxyPiece(f) + WarningPiece(f) + OutcomePiece(f)
  }

  predicate Beats(a: Candidate, b: Candidate) {
    Rank(a.severity) > Rank(b.severity) || (Rank(a.severity) == Rank(b.severity) && a.priority > b.priority)
  }

  function Rank(s: Severity): nat {
    match s
    case Informational => 0
    case Degraded => 1
    case Interrupted => 2
    case Blocker => 3
  }

  // ----- building the conclusion -----

  method BuildCandidates(facts: Facts) returns (candidates: seq<Candidate>)
    ensures candidates == Candidates(facts)
  {
    candidates := OperationTimeoutPiece(facts);
    candidates := candidates + CheckTimeoutPiece(facts);
    candidates := candidates + TargetPiece(facts);
    candidates := candidates + ProxyInvalidPiece(facts);
    candidates := candidates + DnsPiece(facts);
    candidates := candidates + TcpPiece(facts);
    candidates := candidates + TlsPiece(facts);
    var general := BuildGeneral(facts);
    candidates := candidates + general;
  }

  method BuildGeneral(facts: Facts) returns (candidates: seq<Candidate>)
    ensures candidates == GeneralCandidates(facts)
  {
    candidates := HttpPiece(facts);
    var failures := FailureCandidates(facts);
    candidates := candidates + failures;
    candidates := candidates + CancelledPiece(facts);
    candidates := candidates + ProxyPiece(facts);
    var warnings := WarningCandidates(facts);
    candidates := candidates + warnings;
    candidates := candidates + OutcomePiece(facts);
  }

  /** The loop that adds one generic blocker per relevant failure. */
  method FailureCandidates(facts: Facts) returns (candidates: seq<Candidate>)
    ensures candidates == FailurePiece(facts)
  {
    candidates := [];
    ghost var c := Block(100, FailureDetected, []);
    for n := 0 to |facts.results|
      invariant candidates == Each(facts, AskRelevantFailure, facts.results[..n], c)
    {
      var r := facts.results[n];
      assert facts.results[..n+1][..n] == facts.results[..n];
      if r.status == Failed && !IsPreflightDiscrepancy(facts, r)
        && !IsAuxiliaryPreflight(facts, r) && !CheckTimeoutSuperseded(facts, r) {
        candidates := candidates + [Block(100, FailureDetected, [r])];
      }
    }
    assert facts.results[..|facts.results|] == facts.results;
  }

  method WarningCandidates(facts: Facts) returns (candidates: seq<Candidate>)
    ensures candidates == WarningPiece(facts)
  {
    candidates := [];
    ghost var c := Degrade(50, CompletedWithWarnings, []);
    for n := 0 to |facts.results|
      invariant candidates == Each(facts, AskWarning, facts.results[..n], c)
    {
      var r := facts.results[n];
      assert facts.results[..n+1][..n] == facts.results[..n];
      if r.status != Warning || IsAuxiliaryPreflight(facts, r) { continue; }
      candidates := candidates + [Degrade(50, CompletedWithWarnings, [r])];
    }
    assert facts.results[..|facts.results|] == facts.results;
  }

  /** The first candidate that no other beats. */
  function Best(cs: seq<Candidate>): (best: Candidate)
    requires cs != []
    ensures best in cs
    ensures forall c | c in cs :: !Beats(c, best)
  {
    var n := |cs| - 1;
    if n == 0 then cs[0]
    else
      var best := Best(cs[..n]);
      assert forall c | c in cs :: c in cs[..n] || c == cs[n];
      if Beats(cs[n], best) then cs[n] else best
  }

  method SelectBest(candidates: seq<Candidate>) returns (best: Candidate)
    requires candidates != []
    ensures best == Best(candidates)
  {
    best := candidates[0];
    for n := 1 to |candidates|
      invariant best == Best(candidates[..n])
    {
      assert candidates[..n+1][..n] == candidates[..n];
      if Rank(candidates[n].severity) > Rank(best.severity)
        || (Rank(candidates[n].severity) == Rank(best.severity) && candidates[n].priority > best.priority) {
        best := candidates[n];
      }
    }
    assert candidates[..|candidates|] == candidates;
  }

  /** What Build publishes before references are attached. */
  function Decide(results: seq<CheckResult>): (Status, Verdict) {
    var cs := Candidates(FactsOf(results));
    if cs == [] then (Passed, Completed) else (Best(cs).status, Best(cs).verdict)
  }

  /** Stands for the conclusion of a run without candidates. */
  const NOTHING_ADVERSE: Candidate := Candidate(Informational, 0, Passed, Completed, [])

  /** The conclusion's source: an unbeaten candidate, or nothing at all. */
  ghost predicate Chosen(results: seq<CheckResult>, best: Candidate) {
    var cs := Candidates(FactsOf(results));
    if cs == [] then best == NOTHING_ADVERSE
    else best in cs && forall c | c in cs :: !Beats(c, best)
  }

  /** The conclusion refers to the candidate's results, to all of them and to no
      others, and is about the first of them. */
  ghost predicate Cites(c: Conclusion, best: Candidate) {
    && c.status == best.status && c.verdict == best.verdict
    && NoDuplicates(c.references) && "" !in c.references
    && (forall x | x in c.references :: exists r :: r in best.results && Represents(x, r))
    && (forall r | r in best.results :: Covered(r, c.references))
    && c.checkID == if best.results == [] then None else Some(best.results[0].id)
  }

  lemma ChosenDecides(results: seq<CheckResult>, best: Candidate)
    requires
      var cs := Candidates(FactsOf(results));
      if cs == [] then best == NOTHING_ADVERSE else best == Best(cs)
    ensures Chosen(results, best) && (best.status, best.verdict) == Decide(results)
  {
  }

  /** conclusionFromResults. */
  method ConclusionFromResults(best: Candidate) returns (c: Conclusion)
    ensures Cites(c, best)
  {
    var references := ReferencesFromResults(best.results);
    c := Conclusion(best.status, best.verdict, references,
                    if best.results == [] then None else Some(best.results[0].id));
  }

  method Build(results: seq<CheckResult>) returns (c: Conclusion)
    ensures (c.status, c.verdict) == Decide(results)
    ensures exists best :: Chosen(results, best) && Cites(c, best)
  {
    var facts := CollectFacts(results);
    var candidates := BuildCandidates(facts);
    var best := NOTHING_ADVERSE;
    if |candidates| > 0 { best := SelectBest(candidates); }
    ChosenDecides(results, best);
    c := ConclusionFromResults(best);
  }

  // ----- references -----

  predicate NoDuplicates(s: seq<string>) {
    forall i, j | 0 <= i < j < |s| :: s[i] != s[j]
  }

  /** A result is represented by one of its evidence IDs, or by its own ID. */
  predicate Represents(reference: string, r: CheckResult) {
    || (exists j :: 0 <= j < |r.evidence| && r.evidence[j].id == reference)
    || reference == IDText(r.id)
  }

  predicate Covered(r: CheckResult, references: seq<string>) {
    && (forall j | 0 <= j < |r.evidence| && r.evidence[j].id != "" :: r.evidence[j].id in references)
    && (IDText(r.id) != "" ==> exists x :: x in references && Represents(x, r))
  }

  ghost predicate Sound(references: seq<string>, seen: set<string>) {
    && NoDuplicates(references) && "" !in references
    && forall x :: x in seen <==> x in references
  }

  /** The evidence loop for one result. */
  method AddEvidence(r: CheckResult, before: seq<string>, known: set<string>)
    returns (references: seq<string>, seen: set<string>, added: bool)
    requires Sound(before, known)
    ensures Sound(references, seen) && before <= references
    ensures forall x | x in references :: x in before || Represents(x, r)
    ensures if added then exists x :: x in references && Represents(x, r) else references == before
    ensures forall k | 0 <= k < |r.evidence| && r.evidence[k].id != "" :: r.evidence[k].id in references
  {
    references, seen, added := before, known, false;
    for j := 0 to |r.evidence|
      invariant Sound(references, seen) && before <= references
      invariant forall x | x in references :: x in before || Represents(x, r)
      invariant if added then exists x :: x in references && Represents(x, r) else references == before
      invariant forall k | 0 <= k < j && r.evidence[k].id != "" :: r.evidence[k].id in references
    {
      var id := r.evidence[j].id;
      if id == "" || id in seen { continue; }
      assert Represents(id, r);
      seen, references, added := seen + {id}, references + [id], true;
      assert id in references;
    }
  }

  /** One turn of the outer loop: a result without a new evidence ID is named by its own. */
  method AddResult(r: CheckResult, before: seq<string>, known: set<string>)
    returns (references: seq<string>, seen: set<string>)
    requires Sound(before, known)
    ensures Sound(references, seen) && before <= references && Covered(r, references)
    ensures forall x | x in references :: x in before || Represents(x, r)
  {
    var added;
    references, seen, added := AddEvidence(r, before, known);
    var id := IDText(r.id);
    assert Represents(id, r);
    if !added && id != "" && id !in seen {
      seen, references := seen + {id}, references + [id];
      assert id in references;
    }
  }

  lemma StillCovered(r: CheckResult, before: seq<string>, references: seq<string>)
    requires Covered(r, before) && before <= references
    ensures Covered(r, references)
  {
    if IDText(r.id) != "" {
      var x :| x in before && Represents(x, r);
      assert x in references;
    }
  }

  /** References are non-empty, never repeated, name only evidence or checks of
      the results, and leave no result with an ID and no evidence item out. */
  method ReferencesFromResults(results: seq<CheckResult>) returns (references: seq<string>)
    ensures NoDuplicates(references) && "" !in references
    ensures forall x | x in references :: exists r :: r in results && Represents(x, r)
    ensures forall r | r in results :: Covered(r, references)
  {
    references := [];
    var seen: set<string> := {};
    for n := 0 to |results|
      invariant Sound(references, seen)
      invariant forall x | x in references :: exists r :: r in results && Represents(x, r)
      invariant forall m | 0 <= m < n :: Covered(results[m], references)
    {
      var r := results[n];
      ghost var before := references;
      references, seen := AddResult(r, references, seen);
      forall m | 0 <= m < n ensures Covered(results[m], references) {
        StillCovered(results[m], before, references);
      }
      forall x | x in references ensures exists r :: r in results && Represents(x, r) {
        if x !in before { assert r in results && Represents(x, r); }
      }
    }
  }
}
