/** The conclusion does not depend on plan order, and what can hide a failure. */
module SummaryTheorems {
  import opened Wrappers
  import opened Model
  import opened Summary

  // ----- which piece a (severity, priority) pair comes from -----

  function SpecificPiece(f: Facts, n: nat): seq<Candidate> {
    match n
    case 0 => OperationTimeoutPiece(f)
    case 1 => CheckTimeoutPiece(f)
    case 2 => TargetPiece(f)
    case 3 => ProxyInvalidPiece(f)
    case 4 => DnsPiece(f)
    case 5 => TcpPiece(f)
    case _ => TlsPiece(f)
  }

  function GeneralPiece(f: Facts, n: nat): seq<Candidate> {
    match n
    case 7 => HttpPiece(f)
    case 8 => FailurePiece(f)
    case 9 => CancelledPiece(f)
    case 10 => ProxyPiece(f)
    case 11 => WarningPiece(f)
    case _ => OutcomePiece(f)
  }

  /** The n-th rule's candidates, counting from 0 to 12. */
  function Piece(f: Facts, n: nat): seq<Candidate> {
    if n < 7 then SpecificPiece(f, n) else GeneralPiece(f, n)
  }

  lemma SevenWays<T>(x: T, a: seq<T>, b: seq<T>, c: seq<T>, d: seq<T>, e: seq<T>, g: seq<T>, h: seq<T>)
    returns (n: nat)
    requires x in a + b + c + d + e + g + h
    ensures n < 7 && x in match n case 0 => a case 1 => b case 2 => c case 3 => d case 4 => e case 5 => g case _ => h
  {
    n := if x in a then 0 else if x in b then 1 else if x in c then 2 else if x in d then 3
      else if x in e then 4 else if x in g then 5 else 6;
  }

  lemma InSpecific(f: Facts, c: Candidate) returns (n: nat)
    requires c in SpecificCandidates(f)
    ensures n < 7 && c in SpecificPiece(f, n)
  {
    n := SevenWays(c, OperationTimeoutPiece(f), CheckTimeoutPiece(f), TargetPiece(f), ProxyInvalidPiece(f),
                   DnsPiece(f), TcpPiece(f), TlsPiece(f));
  }

  lemma InGeneral(f: Facts, c: Candidate) returns (n: nat)
    requires c in GeneralCandidates(f)
    ensures 7 <= n < 13 && c in GeneralPiece(f, n)
  {
    n := if c in GeneralPiece(f, 7) then 7 else if c in GeneralPiece(f, 8) then 8
      else if c in GeneralPiece(f, 9) then 9 else if c in GeneralPiece(f, 10) then 10
      else if c in GeneralPiece(f, 11) then 11 else 12;
  }

  lemma InSomePiece(f: Facts, c: Candidate) returns (n: nat)
    requires c in Candidates(f)
    ensures n < 13 && c in Piece(f, n)
  {
    if c in SpecificCandidates(f) { n := InSpecific(f, c); }
    else { n := InGeneral(f, c); }
  }

  lemma SpecificIn(f: Facts, n: nat, c: Candidate)
    requires n < 7 && c in SpecificPiece(f, n)
    ensures c in SpecificCandidates(f)
  {
  }

  lemma GeneralIn(f: Facts, n: nat, c: Candidate)
    requires 7 <= n < 13 && c in GeneralPiece(f, n)
    ensures c in GeneralCandidates(f)
  {
  }

  lemma PieceIn(f: Facts, n: nat, c: Candidate)
    requires n < 13 && c in Piece(f, n)
    ensures c in Candidates(f)
  {
    if n < 7 { SpecificIn(f, n, c); } else { GeneralIn(f, n, c); }
  }

  function Key(c: Candidate): (Severity, nat, Status, Verdict) {
    (c.severity, c.priority, c.status, c.verdict)
  }

  function Owner(severity: Severity, priority: nat): nat {
    match severity
    case Blocker =>
      if priority == 1000 then 0 else if priority == 950 then 1 else if priority == 900 then 2
      else if priority == 875 then 3 else if priority == 700 then 4 else if priority == 650 then 5
      else if priority == 800 || priority == 600 then 6 else if priority == 850 || priority == 550 then 7 else 8
    case Interrupted => 9
    case Degraded =>
      if priority == 700 || priority == 600 then 5 else if priority == 800 then 6
      else if priority >= 850 then 7 else if priority == 50 then 11 else 10
    case Informational => if priority == 100 then 7 else 12
  }

  lemma ObservationUniform(f: Facts, n: nat, c: Candidate)
    requires n < 4 && c in SpecificPiece(f, n)
    ensures Owner(c.severity, c.priority) == n
    ensures forall d | d in SpecificPiece(f, n) :: Key(d) == Key(c)
    ensures c.severity == Blocker <==> c.status == Failed
  {
  }

  lemma StageUniform(f: Facts, n: nat, c: Candidate)
    requires 4 <= n < 7 && c in SpecificPiece(f, n)
    ensures Owner(c.severity, c.priority) == n
    ensures forall d | d in SpecificPiece(f, n) :: Key(d) == Key(c)
    ensures c.severity == Blocker <==> c.status == Failed
  {
  }

  lemma GeneralUniform(f: Facts, n: nat, c: Candidate)
    requires 7 <= n < 13 && c in GeneralPiece(f, n)
    ensures Owner(c.severity, c.priority) == n
    ensures forall d | d in GeneralPiece(f, n) :: Key(d) == Key(c)
    ensures c.severity == Blocker <==> c.status == Failed
  {
    if n == 7 { HttpUniform(f, c); } else if n == 8 || n == 11 { EachUniform(f, n, c); } else { RestUniform(f, n, c); }
  }

  lemma HttpUniform(f: Facts, c: Candidate)
    requires c in HttpPiece(f)
    ensures Owner(c.severity, c.priority) == 7
    ensures forall d | d in HttpPiece(f) :: Key(d) == Key(c)
    ensures c.severity == Blocker <==> c.status == Failed
  {
  }

  lemma EachUniform(f: Facts, n: nat, c: Candidate)
    requires (n == 8 || n == 11) && c in GeneralPiece(f, n)
    ensures Owner(c.severity, c.priority) == n
    ensures forall d | d in GeneralPiece(f, n) :: Key(d) == Key(c)
    ensures c.severity == Blocker <==> c.status == Failed
  {
  }

  lemma RestUniform(f: Facts, n: nat, c: Candidate)
    requires n in {9, 10, 12} && c in GeneralPiece(f, n)
    ensures Owner(c.severity, c.priority) == n
    ensures forall d | d in GeneralPiece(f, n) :: Key(d) == Key(c)
    ensures c.severity == Blocker <==> c.status == Failed
  {
  }

  /** One rule says one thing, and no other rule uses its ranks. */
  lemma PieceUniform(f: Facts, n: nat, c: Candidate)
    requires n < 13 && c in Piece(f, n)
    ensures Owner(c.severity, c.priority) == n
    ensures forall d | d in Piece(f, n) :: Key(d) == Key(c)
    ensures c.severity == Blocker <==> c.status == Failed
  {
    if n < 4 { ObservationUniform(f, n, c); } else if n < 7 { StageUniform(f, n, c); } else { GeneralUniform(f, n, c); }
  }

  /** Two candidates that tie on severity and priority say the same thing. */
  lemma TiesAgree(f: Facts, c: Candidate, d: Candidate)
    requires c in Candidates(f) && d in Candidates(f)
    requires c.severity == d.severity && c.priority == d.priority
    ensures Key(c) == Key(d)
  {
    var m := InSomePiece(f, c);
    var n := InSomePiece(f, d);
    PieceUniform(f, m, c);
    PieceUniform(f, n, d);
  }

  // ----- order independence -----

  predicate SameMembers(p: seq<CheckResult>, q: seq<CheckResult>) {
    (forall x | x in p :: x in q) && (forall x | x in q :: x in p)
  }

  predicate UniqueIDs(results: seq<CheckResult>) {
    forall x, y | x in results && y in results && x.id == y.id :: x == y
  }

  lemma ByIDAgrees(p: seq<CheckResult>, q: seq<CheckResult>, id: CheckID)
    requires SameMembers(p, q) && UniqueIDs(p)
    ensures ByID(p, id) == ByID(q, id)
  {
  }

  lemma FailedPreflightMembers(results: seq<CheckResult>)
    ensures forall x :: x in FailedPreflights(results) <==> x in results && IsPreflight(x) && x.status == Failed
  {
  }

  /** Everything the rules ask of the facts, apart from list order. */
  ghost predicate Agree(f: Facts, g: Facts) {
    && f.proxy == g.proxy && f.http == g.http && f.proxySelected == g.proxySelected
    && f.route == g.route && f.httpReached == g.httpReached
    && (f.preflightFailures == [] <==> g.preflightFailures == [])
    && SameMembers(f.results, g.results) && UniqueIDs(f.results)
  }

  lemma FactsAgree(p: seq<CheckResult>, q: seq<CheckResult>)
    requires SameMembers(p, q) && UniqueIDs(p)
    ensures Agree(FactsOf(p), FactsOf(q))
  {
    ByIDAgrees(p, q, Environment);
    ByIDAgrees(p, q, Http);
    SomePreflightFailed(p, q);
    SomePreflightFailed(q, p);
  }

  lemma SomePreflightFailed(p: seq<CheckResult>, q: seq<CheckResult>)
    requires SameMembers(p, q)
    ensures FailedPreflights(p) != [] ==> FailedPreflights(q) != []
  {
    FailedPreflightMembers(p);
    FailedPreflightMembers(q);
    if FailedPreflights(p) != [] { assert FailedPreflights(p)[0] in FailedPreflights(q); }
  }

  lemma RelevantAgrees(f: Facts, g: Facts, r: CheckResult)
    requires Agree(f, g)
    ensures Relevant(f, r) == Relevant(g, r)
    ensures IsAuxiliaryPreflight(f, r) == IsAuxiliaryPreflight(g, r)
    ensures IsPreflightDiscrepancy(f, r) == IsPreflightDiscrepancy(g, r)
    ensures CheckTimeoutSuperseded(f, r) == CheckTimeoutSuperseded(g, r)
  {
    if c :| c in f.results && SupersededBy(f, r, c) {
      assert c in g.results && SupersededBy(g, r, c);
    }
    if c :| c in g.results && SupersededBy(g, r, c) {
      assert c in f.results && SupersededBy(f, r, c);
    }
  }

  /** The facts agree, and so do the three questions asked of each result. */
  ghost predicate AgreeAll(f: Facts, g: Facts) {
    && Agree(f, g)
    && forall r ::
      && Relevant(f, r) == Relevant(g, r) && IsAuxiliaryPreflight(f, r) == IsAuxiliaryPreflight(g, r)
      && IsPreflightDiscrepancy(f, r) == IsPreflightDiscrepancy(g, r)
      && CheckTimeoutSuperseded(f, r) == CheckTimeoutSuperseded(g, r)
  }

  lemma AgreeOnEach(f: Facts, g: Facts)
    requires Agree(f, g)
    ensures AgreeAll(f, g)
  {
    forall r
      ensures Relevant(f, r) == Relevant(g, r) && IsAuxiliaryPreflight(f, r) == IsAuxiliaryPreflight(g, r)
      ensures IsPreflightDiscrepancy(f, r) == IsPreflightDiscrepancy(g, r)
      ensures CheckTimeoutSuperseded(f, r) == CheckTimeoutSuperseded(g, r)
    {
      RelevantAgrees(f, g, r);
    }
  }

  /** Rules that ask whether some result has a property. */
  lemma ListTransfers(f: Facts, g: Facts, n: nat, c: Candidate)
    requires AgreeAll(f, g) && n in {0, 1, 9} && c in Piece(f, n)
    ensures Piece(g, n) != [] && Key(Piece(g, n)[0]) == Key(c)
  {
  }

  lemma ProxyInvalidTransfers(f: Facts, g: Facts, c: Candidate)
    requires AgreeAll(f, g) && c in ProxyInvalidPiece(f)
    ensures ProxyInvalidPiece(g) != [] && Key(ProxyInvalidPiece(g)[0]) == Key(c)
  {
    assert c.results[0] in Filter(g, AskProxyInvalid, g.results);
  }

  /** Rules with one candidate per result. */
  lemma FailureTransfers(f: Facts, g: Facts, c: Candidate)
    requires AgreeAll(f, g) && c in FailurePiece(f)
    ensures FailurePiece(g) != [] && Key(FailurePiece(g)[0]) == Key(c)
  {
    assert Holds(g, AskRelevantFailure, c.results[0]);
    assert FailurePiece(g)[0] in FailurePiece(g);
  }

  lemma WarningTransfers(f: Facts, g: Facts, c: Candidate)
    requires AgreeAll(f, g) && c in WarningPiece(f)
    ensures WarningPiece(g) != [] && Key(WarningPiece(g)[0]) == Key(c)
  {
    assert Holds(g, AskWarning, c.results[0]);
    assert WarningPiece(g)[0] in WarningPiece(g);
  }

  /** Rules that look one check up by its ID. */
  lemma LookupTransfers(f: Facts, g: Facts, n: nat, c: Candidate)
    requires AgreeAll(f, g) && n in {2, 4} && c in Piece(f, n)
    ensures Piece(g, n) != [] && Key(Piece(g, n)[0]) == Key(c)
  {
    ByIDAgrees(f.results, g.results, if n == 2 then Target else Dns);
  }

  lemma TcpTransfers(f: Facts, g: Facts)
    requires AgreeAll(f, g)
    ensures TcpPiece(f) == TcpPiece(g) && |TcpPiece(f)| <= 1
  {
    ByIDAgrees(f.results, g.results, Tcp);
  }

  lemma TlsTransfers(f: Facts, g: Facts)
    requires AgreeAll(f, g)
    ensures TlsPiece(f) == TlsPiece(g) && |TlsPiece(f)| <= 1
  {
    ByIDAgrees(f.results, g.results, Tls);
  }

  lemma HttpTransfers(f: Facts, g: Facts)
    requires Agree(f, g)
    ensures |HttpPiece(f)| == |HttpPiece(g)| <= 1
    ensures HttpPiece(f) != [] ==> Key(HttpPiece(f)[0]) == Key(HttpPiece(g)[0])
  {
  }

  lemma ProxyTransfers(f: Facts, g: Facts)
    requires Agree(f, g)
    ensures ProxyPiece(f) == ProxyPiece(g) && |ProxyPiece(f)| <= 1
  {
    TransportAgrees(f, g);
  }

  lemma TransportAgrees(f: Facts, g: Facts)
    requires Agree(f, g)
    ensures TransportPassed(f.results) == TransportPassed(g.results)
  {
    ByIDAgrees(f.results, g.results, Http);
    ByIDAgrees(f.results, g.results, Tcp);
  }

  lemma OutcomeTransfers(f: Facts, g: Facts, c: Candidate)
    requires AgreeAll(f, g) && c in Piece(f, 12)
    ensures Piece(g, 12) != [] && Key(Piece(g, 12)[0]) == Key(c)
  {
    assert f.results == [] <==> g.results == [] by {
      if f.results != [] { assert f.results[0] in g.results; }
      if g.results != [] { assert g.results[0] in f.results; }
    }
    assert AllWith(f.results, NotApplicable) == AllWith(g.results, NotApplicable);
    assert OnlySkipped(f.results) == OnlySkipped(g.results);
  }

  lemma PieceTransfers(f: Facts, g: Facts, n: nat, c: Candidate)
    requires AgreeAll(f, g) && n < 13 && c in Piece(f, n)
    ensures Piece(g, n) != [] && Key(Piece(g, n)[0]) == Key(c)
  {
    if n in {5, 7, 10} { SameTransfers(f, g, n, c); }
    else if n in {0, 1, 9} { ListTransfers(f, g, n, c); }
    else if n == 3 { ProxyInvalidTransfers(f, g, c); }
    else if n in {2, 4} { LookupTransfers(f, g, n, c); }
    else if n == 6 { TlsTransfers(f, g); }
    else if n == 8 { FailureTransfers(f, g, c); }
    else if n == 11 { WarningTransfers(f, g, c); }
    else { OutcomeTransfers(f, g, c); }
  }

  lemma SameTransfers(f: Facts, g: Facts, n: nat, c: Candidate)
    requires AgreeAll(f, g) && n in {5, 7, 10} && c in Piece(f, n)
    ensures Piece(g, n) != [] && Key(Piece(g, n)[0]) == Key(c)
  {
    if n == 5 { TcpTransfers(f, g); } else if n == 7 { HttpTransfers(f, g); } else { ProxyTransfers(f, g); }
  }

  /** Whatever f's rules say, g's rules say too. */
  lemma CandidateTransfers(f: Facts, g: Facts, c: Candidate) returns (d: Candidate)
    requires AgreeAll(f, g) && c in Candidates(f)
    ensures d in Candidates(g) && Key(d) == Key(c)
  {
    var n := InSomePiece(f, c);
    PieceTransfers(f, g, n, c);
    d := Piece(g, n)[0];
    PieceIn(g, n, d);
  }

  /** The best of two candidate lists with the same keys has the same key. */
  lemma BestAgrees(f: Facts, g: Facts)
    requires AgreeAll(f, g) && AgreeAll(g, f)
    requires Candidates(f) != []
    ensures Candidates(g) != [] && Key(Best(Candidates(f))) == Key(Best(Candidates(g)))
  {
    var b := Best(Candidates(f));
    var b' := CandidateTransfers(f, g, b);
    var e := Best(Candidates(g));
    var e' := CandidateTransfers(g, f, e);
    BestsTie(Candidates(f), Candidates(g), b', e');
    TiesAgree(g, b', e);
  }

  lemma BestsTie(cs: seq<Candidate>, ds: seq<Candidate>, b: Candidate, e: Candidate)
    requires cs != [] && ds != [] && b in ds && e in cs
    requires Key(b) == Key(Best(cs)) && Key(e) == Key(Best(ds))
    ensures b.severity == Best(ds).severity && b.priority == Best(ds).priority
  {
    assert !Beats(b, Best(ds)) && !Beats(e, Best(cs));
  }

  /** Plan order never changes the status, the title or the recommendation. */
  lemma SameMembersSameDecision(p: seq<CheckResult>, q: seq<CheckResult>)
    requires SameMembers(p, q) && UniqueIDs(p)
    ensures Decide(p) == Decide(q)
  {
    FactsAgree(p, q);
    FactsAgree(q, p);
    var f, g := FactsOf(p), FactsOf(q);
    AgreeOnEach(f, g);
    AgreeOnEach(g, f);
    if Candidates(f) != [] { BestAgrees(f, g); }
    else if Candidates(g) != [] { BestAgrees(g, f); }
  }

  /** For any two orders of results with pairwise distinct check IDs. */
  lemma OrderIndependent(p: seq<CheckResult>, q: seq<CheckResult>)
    requires multiset(p) == multiset(q) && DistinctIDs(p)
    ensures Decide(p) == Decide(q)
  {
    forall x ensures x in p <==> x in q {
      assert x in p <==> x in multiset(p);
      assert x in q <==> x in multiset(q);
    }
    SameMembersSameDecision(p, q);
  }

  function Sample(id: CheckID, status: Status, code: ErrorCode): CheckResult {
    CheckResult(id, "", status, false, [], 1, 1, 0, code, [])
  }

  // ----- when the conclusion is a failure -----

  /** A degraded, interrupted or informational candidate never hides a blocker,
      and nothing but a blocker makes the conclusion failed. */
  lemma FailedIffBlocker(results: seq<CheckResult>)
    ensures Decide(results).0 == Failed <==>
      exists c :: c in Candidates(FactsOf(results)) && c.severity == Blocker
  {
    var f := FactsOf(results);
    if Candidates(f) != [] {
      BestBlocks(Candidates(f));
      BlockersFail(f, Best(Candidates(f)));
    }
  }

  lemma BestBlocks(cs: seq<Candidate>)
    requires cs != []
    ensures Best(cs).severity == Blocker <==> exists c :: c in cs && c.severity == Blocker
  {
    if c :| c in cs && c.severity == Blocker { assert !Beats(c, Best(cs)); }
  }

  lemma BlockersFail(f: Facts, c: Candidate)
    requires c in Candidates(f)
    ensures c.severity == Blocker <==> c.status == Failed
  {
    var n := InSomePiece(f, c);
    PieceUniform(f, n, c);
  }

  predicate RedirectCode(code: ErrorCode) {
    code == HttpRedirectLoop || code == HttpTooManyRedirects
  }

  predicate ReachedCode(code: ErrorCode) {
    code == HttpClientError || code == HttpServerError
  }

  /** The observations that make a run failed, as a question about the results. */
  predicate Fatal(f: Facts, r: CheckResult) {
    || r.errorCode == OperationTimeout
    || ((r.errorCode == CheckTimeout || r.status == Failed) && Relevant(f, r))
    || (r.id == Target && r.status == Failed)
    || ProxyInvalidResult(r)
    || (r.id == Http && (RedirectCode(r.errorCode)
                         || (r.status == Failed && !ReachedCode(r.errorCode) && r.errorCode != ProxyConfigInvalid)))
  }

  lemma BlockerIsFatal(f: Facts, n: nat, c: Candidate)
    requires f.http == ByID(f.results, Http)
    requires n < 13 && c in Piece(f, n) && c.severity == Blocker
    ensures exists r :: r in f.results && Fatal(f, r)
  {
    if n == 3 || n == 8 || n == 7 {
      BlockerListFatal(f, n, c);
    } else if n < 3 {
      ObservationFatal(f, n, c);
    } else if n < 7 {
      StageFatal(f, n, c);
    }
  }

  lemma ObservationFatal(f: Facts, n: nat, c: Candidate)
    requires n < 3 && c in SpecificPiece(f, n)
    ensures exists r :: r in f.results && Fatal(f, r)
  {
    assert c.results[0] in f.results && Fatal(f, c.results[0]);
  }

  lemma StageFatal(f: Facts, n: nat, c: Candidate)
    requires 4 <= n < 7 && c in SpecificPiece(f, n) && c.severity == Blocker
    ensures exists r :: r in f.results && Fatal(f, r)
  {
    assert c.results[0] in f.results && Fatal(f, c.results[0]);
  }

  lemma BlockerListFatal(f: Facts, n: nat, c: Candidate)
    requires f.http == ByID(f.results, Http)
    requires n in {3, 7, 8} && c in Piece(f, n) && c.severity == Blocker
    ensures exists r :: r in f.results && Fatal(f, r)
  {
    if n == 3 {
      assert c.results[0] in Filter(f, AskProxyInvalid, f.results);
      assert Fatal(f, c.results[0]);
    } else if n == 7 {
      HttpBlockerFatal(f, c);
    } else {
      assert Fatal(f, c.results[0]);
    }
  }

  lemma HttpBlockerFatal(f: Facts, c: Candidate)
    requires f.http == ByID(f.results, Http) && c in HttpPiece(f) && c.severity == Blocker
    ensures exists r :: r in f.results && Fatal(f, r)
  {
    assert f.http.value in f.results && Fatal(f, f.http.value);
  }

  lemma FailurePieceBlocks(f: Facts, r: CheckResult)
    requires r in f.results && r.status == Failed && Relevant(f, r)
    ensures FailurePiece(f) != [] && FailurePiece(f)[0].severity == Blocker
  {
    assert Holds(f, AskRelevantFailure, r);
    assert FailurePiece(f)[0] in FailurePiece(f);
  }

  lemma FatalIsBlocker(f: Facts, r: CheckResult) returns (n: nat)
    requires f.http == ByID(f.results, Http) && UniqueIDs(f.results)
    requires r in f.results && Fatal(f, r)
    ensures n < 13 && Piece(f, n) != [] && Piece(f, n)[0].severity == Blocker
  {
    if r.errorCode == OperationTimeout {
      n := 0;
    } else if r.errorCode == CheckTimeout && Relevant(f, r) {
      n := 1;
    } else if r.status == Failed && Relevant(f, r) {
      n := 8;
      FailurePieceBlocks(f, r);
    } else if r.id == Target && r.status == Failed {
      n := 2;
    } else if ProxyInvalidResult(r) {
      n := 3;
      assert Holds(f, AskProxyInvalid, r);
    } else {
      n := 7;
      HttpFatalBlocks(f, r);
    }
  }

  lemma HttpFatalBlocks(f: Facts, r: CheckResult)
    requires f.http == ByID(f.results, Http) && UniqueIDs(f.results) && r in f.results && r.id == Http
    requires RedirectCode(r.errorCode)
      || (r.status == Failed && !ReachedCode(r.errorCode) && r.errorCode != ProxyConfigInvalid)
    ensures HttpPiece(f) != [] && HttpPiece(f)[0].severity == Blocker
  {
  }

  /** Exactly when a run is reported as failed. */
  lemma FailedExactly(results: seq<CheckResult>)
    requires UniqueIDs(results)
    ensures Decide(results).0 == Failed <==> exists r :: r in results && Fatal(FactsOf(results), r)
  {
    var f := FactsOf(results);
    FailedIffBlocker(results);
    if c :| c in Candidates(f) && c.severity == Blocker {
      var n := InSomePiece(f, c);
      BlockerIsFatal(f, n, c);
    }
    if r :| r in results && Fatal(f, r) {
      var n := FatalIsBlocker(f, r);
      PieceIn(f, n, Piece(f, n)[0]);
    }
  }

  /** Of the failures that supersede one another, the one on the highest layer
      is superseded by none. */
  lemma {:induction false} TopFailure(f: Facts, r: CheckResult) returns (top: CheckResult)
    requires !f.httpReached && r in f.results && r.status == Failed && !IsAuxiliaryPreflight(f, r)
    ensures top in f.results && top.status == Failed && Relevant(f, top)
    decreases 7 - CheckLayer(r.id)
  {
    if CheckTimeoutSuperseded(f, r) {
      var c :| c in f.results && SupersededBy(f, r, c);
      top := TopFailure(f, c);
    } else {
      top := r;
    }
  }

  /** Superseding timeouts never hides a failure from a run whose HTTP request
      did not get through: any failed check that is not an auxiliary preflight
      makes the run failed. */
  lemma NoFailureHidden(results: seq<CheckResult>, r: CheckResult)
    requires !HttpReached(results)
    requires r in results && r.status == Failed && !IsAuxiliaryPreflight(FactsOf(results), r)
    ensures Decide(results).0 == Failed
  {
    var f := FactsOf(results);
    var top := TopFailure(f, r);
    FailurePieceBlocks(f, top);
    PieceIn(f, 8, FailurePiece(f)[0]);
    FailedIffBlocker(results);
  }

  /** When the HTTP request did get through, a failed check outside the
      preflights raises no blocker of its own exactly when it is a target or
      environment timeout below some failed check. */
  lemma NoOwnBlocker(results: seq<CheckResult>, r: CheckResult)
    requires UniqueIDs(results) && HttpReached(results)
    requires r in results && r.status == Failed && !IsPreflight(r)
    ensures
      var f := FactsOf(results);
      !Relevant(f, r) <==>
        && (r.id == Target || r.id == Environment) && r.errorCode == CheckTimeout
        && exists d :: d in results && SupersededBy(f, r, d)
  {
    assert r.id != Http;
  }

  /** Exactly when the run is not reported as failed although a check outside the
      preflights failed and the HTTP request got through: the check is the
      environment check, it ran out of its budget, it found no invalid proxy, a
      failed check on a higher layer supersedes it, and nothing else is fatal. */
  lemma SilencedExactly(results: seq<CheckResult>, r: CheckResult)
    requires UniqueIDs(results) && HttpReached(results)
    requires r in results && r.status == Failed && !IsPreflight(r)
    ensures
      var f := FactsOf(results);
      Decide(results).0 != Failed <==>
        && r.id == Environment && r.errorCode == CheckTimeout && !ProxyInvalidResult(r)
        && (exists d :: d in results && SupersededBy(f, r, d))
        && (forall x | x in results && x != r :: !Fatal(f, x))
  {
    FailedExactly(results);
    NoOwnBlocker(results, r);
  }

  /** What supersedes it is a failed direct preflight on a higher layer. */
  lemma HiddenOnlyByPreflight(results: seq<CheckResult>, r: CheckResult)
    requires UniqueIDs(results) && HttpReached(results)
    requires r in results && r.status == Failed && !IsPreflight(r)
    requires Decide(results).0 != Failed
    ensures r.id == Environment && r.errorCode == CheckTimeout
    ensures exists d :: d in results && d.status == Failed && IsPreflight(d) && !IsAuxiliaryPreflight(FactsOf(results), d)
                        && CheckLayer(d.id) > CheckLayer(r.id)
  {
    SilencedExactly(results, r);
    var d :| d in results && SupersededBy(FactsOf(results), r, d);
    ReachedNotFailed(results, d);
  }

  lemma ReachedNotFailed(results: seq<CheckResult>, d: CheckResult)
    requires UniqueIDs(results) && HttpReached(results) && d in results && d.status == Failed
    ensures d.id != Http
  {
  }

  /** The exception is real: an environment check that ran out of its budget is
      not reported as a failure next to a failed DNS preflight. */
  lemma EnvironmentTimeoutCanBeHidden() returns (results: seq<CheckResult>)
    ensures DistinctIDs(results) && |results| == 3
    ensures results[0].id == Environment && results[0].status == Failed && results[0].errorCode == CheckTimeout
    ensures results[1].id == Dns && results[1].status == Failed
    ensures Decide(results).0 != Failed
  {
    results := HiddenRun();
    NothingFatal(results);
  }

  lemma HiddenRun() returns (results: seq<CheckResult>)
    ensures DistinctIDs(results) && |results| == 3
    ensures results[0].id == Environment && results[0].status == Failed && results[0].errorCode == CheckTimeout
    ensures results[1].id == Dns && results[1].status == Failed
    ensures forall r | r in results :: !Fatal(FactsOf(results), r)
  {
    var e, d, h := Sample(Environment, Failed, CheckTimeout), Sample(Dns, Failed, NO_CODE), Sample(Http, Passed, NO_CODE);
    results := [e, d, h];
    SampleLookups(e, d, h);
    SampleNotFatal(FactsOf(results), e, d, h);
  }

  lemma SampleLookups(e: CheckResult, d: CheckResult, h: CheckResult)
    requires e.id == Environment && d.id == Dns && h.id == Http
    ensures ByID([e, d, h], Http) == Some(h) && ByID([e, d, h], Environment) == Some(e)
  {
  }

  lemma SampleNotFatal(f: Facts, e: CheckResult, d: CheckResult, h: CheckResult)
    requires f.results == [e, d, h] && f.httpReached && !f.proxySelected && f.http == Some(h)
    requires e == Sample(Environment, Failed, CheckTimeout)
    requires d == Sample(Dns, Failed, NO_CODE) && h == Sample(Http, Passed, NO_CODE)
    ensures forall r | r in f.results :: !Fatal(f, r)
  {
    assert d in f.results && SupersededBy(f, e, d);
    NotFatal(f, e);
    NotFatal(f, d);
    NotFatal(f, h);
  }

  lemma NothingFatal(results: seq<CheckResult>)
    requires UniqueIDs(results) && forall r | r in results :: !Fatal(FactsOf(results), r)
    ensures Decide(results).0 != Failed
  {
    FailedExactly(results);
  }

  lemma NotFatal(f: Facts, r: CheckResult)
    requires r.errorCode == NO_CODE || r.errorCode == CheckTimeout
    requires r.evidence == [] && r.id != Target
    requires r.status == Failed || r.errorCode == CheckTimeout ==> !Relevant(f, r) && r.id != Http
    ensures !Fatal(f, r)
  {
  }

  /** Complete results give a complete conclusion. */
  lemma DecisionFinal(results: seq<CheckResult>)
    requires forall r | r in results :: Final(r.status)
    ensures Final(Decide(results).0)
  {
    var f := FactsOf(results);
    if Candidates(f) != [] {
      var best := Best(Candidates(f));
      var n := InSomePiece(f, best);
      PieceFinal(f, n, best);
    }
  }

  lemma PieceFinal(f: Facts, n: nat, c: Candidate)
    requires forall r | r in f.results :: Final(r.status)
    requires n < 13 && c in Piece(f, n)
    ensures Final(c.status)
  {
  }
}
