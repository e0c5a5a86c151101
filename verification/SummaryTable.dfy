/** The conclusion as a decision table: the first level that applies decides. */
module SummaryTable {
  import opened Wrappers
  import opened Model
  import opened Summary
  import opened SummaryTheorems

  const LEVELS: nat := 25

  predicate SomeResult(f: Facts, ask: Ask) {
    exists r :: r in f.results && Holds(f, ask, r)
  }

  /** A certificate is at fault, not the negotiation. */
  predicate CertificateCode(code: ErrorCode) {
    code == TlsExpired || code == TlsHostname || code == TlsAuthority || code == TlsNotYetValid
  }

  /** The HTTP check answered with neither a redirect failure nor an error response. */
  predicate PlainAnswer(h: CheckResult) {
    !RedirectCode(h.errorCode) && !ReachedCode(h.errorCode)
  }

  predicate OneFamilyOnly(r: CheckResult) {
    var v := FamiliesOf(r.evidence);
    (v.v4Success && v.v6Failure && !v.v6Success) || (v.v6Success && v.v4Failure && !v.v4Success)
  }

  predicate ProxyOff(f: Facts) {
    f.proxy.Some? && HasCode(f.proxy.value, ProxyDisabled) && TransportPassed(f.results)
  }

  predicate Tainted(f: Facts) {
    RouteVia(f) != Plain || f.preflightFailures != []
  }

  /** Levels 0 to 10: the blockers, most important first. */
  predicate BlockerApplies(f: Facts, n: nat) {
    var dns, tcp, tls := ByID(f.results, Dns), ByID(f.results, Tcp), ByID(f.results, Tls);
    match n
    case 0 => SomeResult(f, AskOperationTimeout)
    case 1 => SomeResult(f, AskRelevantTimeout)
    case 2 => ByID(f.results, Target).Some? && ByID(f.results, Target).value.status == Failed
    case 3 => SomeResult(f, AskProxyInvalid)
    case 4 => f.http.Some? && RedirectCode(f.http.value.errorCode)
    case 5 => tls.Some? && Holds(f, AskRelevantFailure, tls.value) && CertificateCode(tls.value.errorCode)
    case 6 => dns.Some? && Holds(f, AskRelevantFailure, dns.value)
    case 7 => tcp.Some? && Holds(f, AskRelevantFailure, tcp.value)
    case 8 => tls.Some? && Holds(f, AskRelevantFailure, tls.value) && !CertificateCode(tls.value.errorCode)
    case 9 =>
      f.http.Some? && f.http.value.status == Failed && PlainAnswer(f.http.value)
      && f.http.value.errorCode != ProxyConfigInvalid
    case 10 => SomeResult(f, AskRelevantFailure)
    case _ => false
  }

  /** Levels 12 to 20: conditions that degrade the conclusion to a warning. */
  predicate WarningApplies(f: Facts, n: nat) {
    var tcp, tls := ByID(f.results, Tcp), ByID(f.results, Tls);
    match n
    case 12 => f.http.Some? && f.http.value.status == Passed && PlainAnswer(f.http.value) && Tainted(f)
    case 13 => f.http.Some? && ReachedCode(f.http.value.errorCode)
    case 14 => f.http.Some? && f.http.value.status == Warning && PlainAnswer(f.http.value)
    case 15 =>
      tls.Some? && tls.value.status != Failed && !IsAuxiliaryPreflight(f, tls.value)
      && CertificateCode(tls.value.errorCode)
    case 16 => tcp.Some? && Holds(f, AskWarning, tcp.value) && OneFamilyOnly(tcp.value)
    case 17 => ProxyOff(f)
    case 18 => tcp.Some? && Holds(f, AskWarning, tcp.value) && !OneFamilyOnly(tcp.value)
    case 19 => f.proxy.Some? && !ProxyOff(f) && f.proxySelected && f.http.None?
    case 20 => SomeResult(f, AskWarning)
    case _ => false
  }

  /** Levels 21 to 24: nothing adverse. */
  predicate OutcomeApplies(f: Facts, n: nat) {
    match n
    case 21 => f.http.Some? && f.http.value.status == Passed && PlainAnswer(f.http.value) && !Tainted(f)
    case 22 => AllWith(f.results, NotApplicable)
    case 23 => OnlySkipped(f.results)
    case 24 => SomeResult(f, AskPassed) && !AllWith(f.results, NotApplicable) && !OnlySkipped(f.results)
    case _ => false
  }

  predicate Applies(f: Facts, n: nat) {
    if n <= 10 then BlockerApplies(f, n)
    else if n == 11 then SomeResult(f, AskCancelled)
    else if n <= 20 then WarningApplies(f, n)
    else OutcomeApplies(f, n)
  }

  function CertificateVerdict(code: ErrorCode): Verdict {
    match code
    case TlsExpired => CertificateExpired
    case TlsHostname => HostnameMismatch
    case TlsAuthority => ChainUntrusted
    case _ => CertificateNotYetValid
  }

  function BlockerSays(f: Facts, n: nat): Verdict
    requires BlockerApplies(f, n)
  {
    match n
    case 0 => TimedOut
    case 1 => CheckTimedOut
    case 2 => InvalidTarget
    case 3 => ProxyInvalid
    case 4 => RedirectsFailed(RouteVia(f))
    case 5 => CertificateVerdict(ByID(f.results, Tls).value.errorCode)
    case 6 => DnsFailed
    case 7 =>
      (match ByID(f.results, Tcp).value.errorCode
       case TcpRefused => TcpConnectionsRefused
       case TcpTimeout => TcpConnectionsTimedOut
       case TcpOther => MixedTcp
       case _ => TcpFailed)
    case 8 => NegotiationFailed
    case 9 => TransportFailed(RouteVia(f))
    case 10 => FailureDetected
  }

  function WarningSays(f: Facts, n: nat): Verdict
    requires WarningApplies(f, n)
  {
    match n
    case 12 => if RouteVia(f) == Plain then ReachedDespitePreflight else Reached(RouteVia(f))
    case 13 =>
      if f.http.value.errorCode == HttpClientError then ClientError(RouteVia(f)) else ServerError(RouteVia(f))
    case 14 => ReachedWithWarnings(RouteVia(f))
    case 15 => CertificateVerdict(ByID(f.results, Tls).value.errorCode)
    case 16 => if FamiliesOf(ByID(f.results, Tcp).value.evidence).v4Success then OnlyIPv4Works else OnlyIPv6Works
    case 17 => DirectWorksWithoutProxy
    case 18 => MixedTcp
    case 19 => ProxyWasSelected
    case 20 => CompletedWithWarnings
  }

  /** Status and verdict of a level; a certificate warning keeps the status of its check. */
  function Says(f: Facts, n: nat): (Status, Verdict)
    requires Applies(f, n)
  {
    if n <= 10 then (Failed, BlockerSays(f, n))
    else if n == 11 then (Cancelled, RunCancelled)
    else if n == 15 then (ByID(f.results, Tls).value.status, WarningSays(f, n))
    else if n <= 20 then (Warning, WarningSays(f, n))
    else if n == 22 then (NotApplicable, NothingApplicable)
    else if n == 23 then (Skipped, ApplicableSkipped)
    else (Passed, Completed)
  }

  /** The table read from level n on. */
  function Read(f: Facts, n: nat): (Status, Verdict)
    decreases LEVELS - n
  {
    if n >= LEVELS then (Passed, Completed)
    else if Applies(f, n) then Says(f, n)
    else Read(f, n + 1)
  }

  // ----- candidates and levels -----

  function LevelOf(severity: Severity, priority: nat): nat {
    match severity
    case Blocker =>
      if priority == 1000 then 0 else if priority == 950 then 1 else if priority == 900 then 2
      else if priority == 875 then 3 else if priority == 850 then 4 else if priority == 800 then 5
      else if priority == 700 then 6 else if priority == 650 then 7 else if priority == 600 then 8
      else if priority == 550 then 9 else if priority == 100 then 10 else LEVELS
    case Interrupted => if priority == 500 then 11 else LEVELS
    case Degraded =>
      if priority == 950 then 12 else if priority == 900 then 13 else if priority == 850 then 14
      else if priority == 800 then 15 else if priority == 700 then 16 else if priority == 650 then 17
      else if priority == 600 then 18 else if priority == 400 then 19 else if priority == 50 then 20 else LEVELS
    case Informational =>
      if priority == 100 then 21 else if priority == 25 then 22 else if priority == 20 then 23
      else if priority == 10 then 24 else LEVELS
  }

  function Level(c: Candidate): nat {
    LevelOf(c.severity, c.priority)
  }

  lemma LevelsRank(c: Candidate, d: Candidate)
    requires Level(c) < Level(d) < LEVELS
    ensures Beats(c, d)
  {
  }

  /** c is what the table says at its own level. */
  predicate Listed(f: Facts, c: Candidate) {
    Level(c) < LEVELS && Applies(f, Level(c)) && Says(f, Level(c)) == (c.status, c.verdict)
  }

  lemma TimeoutListed(f: Facts, n: nat, c: Candidate)
    requires n < 2 && c in SpecificPiece(f, n)
    ensures Listed(f, c)
  {
  }

  lemma ObservationListed(f: Facts, n: nat, c: Candidate)
    requires 2 <= n < 5 && c in SpecificPiece(f, n)
    ensures Listed(f, c)
  {
  }

  lemma OneFamilyListed(f: Facts, c: Candidate)
    requires c in TcpPiece(f) && c.severity == Degraded && c.priority == 700
    ensures Listed(f, c)
  {
  }

  lemma MixedFamiliesListed(f: Facts, c: Candidate)
    requires c in TcpPiece(f) && c.severity == Degraded && c.priority != 700
    ensures Listed(f, c)
  {
  }

  lemma TcpFailureListed(f: Facts, c: Candidate)
    requires c in TcpPiece(f) && c.severity != Degraded
    ensures Listed(f, c)
  {
  }

  lemma CertificateListed(f: Facts, c: Candidate)
    requires c in TlsPiece(f) && CertificateCode(ByID(f.results, Tls).value.errorCode)
    ensures Listed(f, c)
  {
  }

  lemma NegotiationListed(f: Facts, c: Candidate)
    requires c in TlsPiece(f) && !CertificateCode(ByID(f.results, Tls).value.errorCode)
    ensures Listed(f, c)
  {
  }

  lemma HttpCodeListed(f: Facts, c: Candidate)
    requires c in HttpPiece(f) && !PlainAnswer(f.http.value)
    ensures Listed(f, c)
  {
  }

  lemma HttpStatusListed(f: Facts, c: Candidate)
    requires c in HttpPiece(f) && PlainAnswer(f.http.value)
    ensures Listed(f, c)
  {
  }

  lemma EachListed(f: Facts, c: Candidate)
    requires c in FailurePiece(f) || c in WarningPiece(f)
    ensures Listed(f, c)
  {
  }

  lemma CancelledListed(f: Facts, c: Candidate)
    requires c in CancelledPiece(f)
    ensures Listed(f, c)
  {
  }

  lemma ProxyListed(f: Facts, c: Candidate)
    requires c in ProxyPiece(f)
    ensures Listed(f, c)
  {
  }

  lemma OutcomeListed(f: Facts, c: Candidate)
    requires c in OutcomePiece(f)
    ensures Listed(f, c)
  {
  }

  lemma SpecificListed(f: Facts, n: nat, c: Candidate)
    requires n < 7 && c in SpecificPiece(f, n)
    ensures Listed(f, c)
  {
    if n < 2 { TimeoutListed(f, n, c); }
    else if n < 5 { ObservationListed(f, n, c); }
    else if n == 6 {
      if CertificateCode(ByID(f.results, Tls).value.errorCode) { CertificateListed(f, c); } else { NegotiationListed(f, c); }
    }
    else if c.severity == Degraded && c.priority == 700 { OneFamilyListed(f, c); }
    else if c.severity == Degraded { MixedFamiliesListed(f, c); }
    else { TcpFailureListed(f, c); }
  }

  lemma GeneralListed(f: Facts, n: nat, c: Candidate)
    requires 7 <= n < 13 && c in GeneralPiece(f, n)
    ensures Listed(f, c)
  {
    match n {
      case 7 => if PlainAnswer(f.http.value) { HttpStatusListed(f, c); } else { HttpCodeListed(f, c); }
      case 8 => EachListed(f, c);
      case 9 => CancelledListed(f, c);
      case 10 => ProxyListed(f, c);
      case 11 => EachListed(f, c);
      case 12 => OutcomeListed(f, c);
    }
  }

  /** Every candidate is listed in the table, at the level of its rank. */
  lemma CandidateListed(f: Facts, c: Candidate)
    requires c in Candidates(f)
    ensures Listed(f, c)
  {
    var n := InSomePiece(f, c);
    if n < 7 { SpecificListed(f, n, c); } else { GeneralListed(f, n, c); }
  }

  // ----- levels and candidates -----

  predicate Offers(cs: seq<Candidate>, n: nat) {
    exists i :: 0 <= i < |cs| && Level(cs[i]) == n
  }

  lemma FailureOffered(f: Facts)
    ensures BlockerApplies(f, 10) ==> Offers(FailurePiece(f), 10)
    ensures WarningApplies(f, 20) ==> Offers(WarningPiece(f), 20)
  {
    if BlockerApplies(f, 10) {
      assert FailurePiece(f)[0] in FailurePiece(f);
      assert Level(FailurePiece(f)[0]) == 10;
    }
    if WarningApplies(f, 20) {
      assert WarningPiece(f)[0] in WarningPiece(f);
      assert Level(WarningPiece(f)[0]) == 20;
    }
  }

  /** The rule that serves a level. */
  function Rule(n: nat): nat {
    match n
    case 0 => 0 case 1 => 1 case 2 => 2 case 3 => 3
    case 4 => 7 case 5 => 6 case 6 => 4 case 7 => 5 case 8 => 6 case 9 => 7 case 10 => 8
    case 11 => 9
    case 12 => 7 case 13 => 7 case 14 => 7 case 15 => 6 case 16 => 5 case 17 => 10 case 18 => 5 case 19 => 10
    case 20 => 11
    case 21 => 7
    case _ => 12
  }

  lemma TimeoutOffered(f: Facts, n: nat)
    requires n < 2 && Applies(f, n)
    ensures Offers(Piece(f, Rule(n)), n)
  {
    assert Level(SpecificPiece(f, n)[0]) == n;
  }

  lemma ObservationOffered(f: Facts, n: nat)
    requires n in {2, 3, 6} && Applies(f, n)
    ensures Offers(Piece(f, Rule(n)), n)
  {
    assert Level(SpecificPiece(f, Rule(n))[0]) == n;
  }

  lemma TcpFailureOffered(f: Facts)
    requires Applies(f, 7)
    ensures Offers(TcpPiece(f), 7)
  {
    assert Level(TcpPiece(f)[0]) == 7;
  }

  lemma TcpWarningOffered(f: Facts, n: nat)
    requires (n == 16 || n == 18) && Applies(f, n)
    ensures Offers(TcpPiece(f), n)
  {
    assert Level(TcpPiece(f)[0]) == n;
  }

  lemma TlsOffered(f: Facts, n: nat)
    requires Rule(n) == 6 && Applies(f, n)
    ensures Offers(Piece(f, 6), n)
  {
    assert Level(TlsPiece(f)[0]) == n;
  }

  lemma HttpOffered(f: Facts, n: nat)
    requires Rule(n) == 7 && Applies(f, n)
    ensures Offers(Piece(f, 7), n)
  {
    assert Level(HttpPiece(f)[0]) == n;
  }

  lemma CancelledOffered(f: Facts)
    requires Applies(f, 11)
    ensures Offers(CancelledPiece(f), 11)
  {
    assert Level(CancelledPiece(f)[0]) == 11;
  }

  lemma ProxyOffered(f: Facts, n: nat)
    requires (n == 17 || n == 19) && Applies(f, n)
    ensures Offers(ProxyPiece(f), n)
  {
    assert Level(ProxyPiece(f)[0]) == n;
  }

  lemma OutcomeOffered(f: Facts, n: nat)
    requires 22 <= n < LEVELS && Applies(f, n)
    ensures Offers(OutcomePiece(f), n)
  {
    assert Level(OutcomePiece(f)[0]) == n;
  }

  /** Every level that applies has its candidate. */
  lemma LevelOffered(f: Facts, n: nat) returns (c: Candidate)
    requires n < LEVELS && Applies(f, n)
    ensures c in Candidates(f) && Level(c) == n
  {
    FailureOffered(f);
    if n < 2 { TimeoutOffered(f, n); }
    else if n in {2, 3, 6} { ObservationOffered(f, n); }
    else if n == 7 { TcpFailureOffered(f); }
    else if n == 16 || n == 18 { TcpWarningOffered(f, n); }
    else if Rule(n) == 6 { TlsOffered(f, n); }
    else if Rule(n) == 7 { HttpOffered(f, n); }
    else if n == 11 { CancelledOffered(f); }
    else if n == 17 || n == 19 { ProxyOffered(f, n); }
    else if n >= 22 { OutcomeOffered(f, n); }
    var cs := Piece(f, Rule(n));
    var i :| 0 <= i < |cs| && Level(cs[i]) == n;
    c := cs[i];
    PieceIn(f, Rule(n), c);
  }

  lemma {:induction false} ReadFirst(f: Facts, n: nat, m: nat)
    requires n <= m < LEVELS && Applies(f, m) && forall k | n <= k < m :: !Applies(f, k)
    ensures Read(f, n) == Says(f, m)
    decreases m - n
  {
    if n < m { ReadFirst(f, n + 1, m); }
  }

  lemma {:induction false} ReadNothing(f: Facts, n: nat)
    requires forall k | n <= k < LEVELS :: !Applies(f, k)
    ensures Read(f, n) == (Passed, Completed)
    decreases LEVELS - n
  {
    if n < LEVELS { ReadNothing(f, n + 1); }
  }

  lemma TableOfNothing(f: Facts)
    requires Candidates(f) == []
    ensures Read(f, 0) == (Passed, Completed)
  {
    forall k | 0 <= k < LEVELS ensures !Applies(f, k) {
      if Applies(f, k) { var c := LevelOffered(f, k); }
    }
    ReadNothing(f, 0);
  }

  lemma BestLevel(f: Facts, best: Candidate) returns (n: nat)
    requires best in Candidates(f) && forall c | c in Candidates(f) :: !Beats(c, best)
    ensures n < LEVELS && Applies(f, n) && Says(f, n) == (best.status, best.verdict)
    ensures forall k | 0 <= k < n :: !Applies(f, k)
  {
    n := Level(best);
    CandidateListed(f, best);
    NothingAbove(f, best);
  }

  lemma TableOfBest(f: Facts, best: Candidate)
    requires best in Candidates(f) && forall c | c in Candidates(f) :: !Beats(c, best)
    ensures Read(f, 0) == (best.status, best.verdict)
  {
    var n := BestLevel(f, best);
    ReadFirst(f, 0, n);
  }

  /** Gathering candidates and choosing the best is reading the table from the top. */
  lemma DecisionTable(results: seq<CheckResult>)
    ensures Decide(results) == Read(FactsOf(results), 0)
  {
    var f := FactsOf(results);
    if Candidates(f) == [] { TableOfNothing(f); } else { TableOfBest(f, Best(Candidates(f))); }
  }

  lemma NothingAbove(f: Facts, best: Candidate)
    requires Level(best) < LEVELS && forall c | c in Candidates(f) :: !Beats(c, best)
    ensures forall k | 0 <= k < Level(best) :: !Applies(f, k)
  {
    forall k | 0 <= k < Level(best) ensures !Applies(f, k) {
      if Applies(f, k) {
        var c := LevelOffered(f, k);
        LevelsRank(c, best);
      }
    }
  }
}
