/** Records shared by the diagnostic engine, the correlation pass and the summary. */
module Model {
  import opened Wrappers

  /** A status is text in the source; Unknown stands for text outside the vocabulary. */
  datatype Status =
    | Pending | Running | Passed | Warning | Failed | Skipped | NotApplicable | Cancelled
    | Unknown(text: string)

  predicate Valid(s: Status) {
    !s.Unknown?
  }

  /** A status a finished check or run may be stored with. */
  predicate Final(s: Status) {
    Valid(s) && s != Pending && s != Running
  }

  /** A check ID is text in the source; Named stands for any other text. */
  datatype CheckID = Target | Environment | Dns | Route | Tcp | Tls | Http | Named(text: string)

  const NO_ID: CheckID := Named("")

  function IDText(id: CheckID): string {
    match id
    case Target => "target"
    case Environment => "environment"
    case Dns => "dns"
    case Route => "route"
    case Tcp => "tcp"
    case Tls => "tls"
    case Http => "http"
    case Named(text) => text
  }

  /** White space by the Unicode property that strings.TrimSpace trims by. */
  predicate Space(c: char) {
    || '\t' <= c <= '\r' || c == ' ' || c == '\U{85}' || c == '\U{a0}' || c == '\U{1680}'
    || '\U{2000}' <= c <= '\U{200a}' || c == '\U{2028}' || c == '\U{2029}' || c == '\U{202f}'
    || c == '\U{205f}' || c == '\U{3000}'
  }

  /** Whether strings.TrimSpace leaves nothing of an ID. */
  predicate Blank(id: CheckID) {
    id.Named? && forall j | 0 <= j < |id.text| :: Space(id.text[j])
  }

  /** Error and evidence codes; Code stands for any other text, Code("") for none. */
  datatype ErrorCode =
    | CheckTimeout | OperationTimeout | OperationCancelled | AuxiliaryBudget | InternalPanic | InvalidResult
    | ProxyConfigInvalid | ProxySelectionUnavailable | ProxySelected | ProxyDisabled | DirectProbeNotSelected
    | TcpAttempt | TcpRefused | TcpTimeout | TcpOther
    | TlsExpired | TlsHostname | TlsAuthority | TlsNotYetValid
    | HttpRedirectLoop | HttpTooManyRedirects | HttpClientError | HttpServerError
    | AuxiliaryComparison
    | Code(text: string)

  const NO_CODE: ErrorCode := Code("")

  datatype NetworkRef = NetworkRef(pathID: string, hopID: string, attemptID: string)

  datatype Evidence = Evidence(
    id: string, checkID: CheckID, networkRef: Option<NetworkRef>, code: ErrorCode, details: map<string, string>)

  /** Times are instants of the wall clock; 0 is the zero time. auxiliary says
      that the role is the auxiliary direct comparison. */
  datatype CheckResult = CheckResult(
    id: CheckID, name: string, status: Status, auxiliary: bool, networkRefs: seq<NetworkRef>,
    startedAt: int, finishedAt: int, duration: int, errorCode: ErrorCode, evidence: seq<Evidence>)

  function Detail(e: Evidence, key: string): string {
    if key in e.details then e.details[key] else ""
  }

  predicate DistinctIDs(results: seq<CheckResult>) {
    forall i, j | 0 <= i < j < |results| :: results[i].id != results[j].id
  }

  /** The first result with an ID. */
  predicate IsFirst(results: seq<CheckResult>, i: nat, id: CheckID)
    requires i < |results|
  {
    results[i].id == id && forall j | 0 <= j < i :: results[j].id != id
  }

  function ByID(results: seq<CheckResult>, id: CheckID): (r: Option<CheckResult>)
    ensures r.Some? ==> exists i :: 0 <= i < |results| && IsFirst(results, i, id) && r.value == results[i]
    ensures r.Some? ==> r.value in results && r.value.id == id
    ensures r.None? ==> forall x | x in results :: x.id != id
  {
    if results == [] then None
    else if results[0].id == id then
      assert IsFirst(results, 0, id);
      Some(results[0])
    else
      var r := ByID(results[1..], id);
      assert forall i | 0 <= i < |results| - 1 && IsFirst(results[1..], i, id) :: IsFirst(results, i + 1, id);
      r
  }
}
