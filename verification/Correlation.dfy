/** Linking check results and their evidence to the network path graph. */
module Correlation {
  import opened Wrappers
  import opened Text
  import opened Model

  // ----- the graph -----

  datatype Role = ClientEffective | AddressMatrix | AuxiliaryDirect

  datatype AttemptKind = KindDns | KindRoute | KindTcp | KindTls

  /** data stands for the fields that are copied and never inspected. */
  datatype Attempt = Attempt(id: string, pathID: string, hopID: string, kind: AttemptKind, selected: bool, data: int)

  datatype Timing = Timing(ref: NetworkRef, phase: string, duration: int)

  datatype Hop = Hop(
    id: string, pathID: string, sequence: nat, selectedAttemptID: string, attempts: seq<Attempt>,
    timings: seq<Timing>, data: int)

  datatype Path = Path(id: string, role: Role, sequence: nat, hops: seq<Hop>, data: int)

  /** A legacy record of one network operation. */
  datatype Artifact = Artifact(ref: Option<NetworkRef>, selected: bool, duration: int, handshake: int, data: int)

  datatype State = State(
    paths: seq<Path>, families: seq<Artifact>, routes: seq<Artifact>, tcp: seq<Artifact>, tls: seq<Artifact>,
    httpRefs: seq<NetworkRef>, proxySelected: bool, httpTarget: bool, addressMatrix: bool, targetData: int)

  const DIRECT: string := "path-direct"
  const ORIGIN: string := "hop-origin"
  const BLANK: NetworkRef := NetworkRef("", "", "")

  function InitialDirectPath(s: State): Path {
    var role := if s.addressMatrix then AddressMatrix else if s.httpTarget then AuxiliaryDirect else ClientEffective;
    Path(DIRECT, role, 1, [Hop(ORIGIN, DIRECT, 1, "", [], [], s.targetData)], 0)
  }

  // ----- references -----

  function ValueRef(ref: Option<NetworkRef>, attemptID: string): NetworkRef {
    match ref
    case None => NetworkRef(DIRECT, ORIGIN, attemptID)
    case Some(r) =>
      NetworkRef(if r.pathID == "" then DIRECT else r.pathID, if r.hopID == "" then ORIGIN else r.hopID,
                 if r.attemptID == "" then attemptID else r.attemptID)
  }

  function UniqueRefs(values: seq<NetworkRef>): (r: seq<NetworkRef>)
    ensures forall x :: x in r <==> x in values && x != BLANK
    ensures forall i, j | 0 <= i < j < |r| :: r[i] != r[j]
  {
    if values == [] then []
    else
      var n := |values| - 1;
      var r := UniqueRefs(values[..n]);
      if values[n] == BLANK || values[n] in r then r else r + [values[n]]
  }

  method UniqueRefsLoop(values: seq<NetworkRef>) returns (result: seq<NetworkRef>)
    ensures result == UniqueRefs(values)
  {
    var seen: set<NetworkRef> := {};
    result := [];
    for i := 0 to |values|
      invariant result == UniqueRefs(values[..i])
      invariant forall x :: x in seen <==> x in result
    {
      assert values[..i+1][..i] == values[..i];
      var value := values[i];
      if value.pathID == "" && value.hopID == "" && value.attemptID == "" { continue; }
      if value in seen { continue; }
      seen := seen + {value};
      result := result + [value];
    }
    assert values[..|values|] == values;
  }

  /** r keeps the first positions of its values, in order. */
  predicate Keeps(values: seq<NetworkRef>, r: seq<NetworkRef>, at: seq<nat>) {
    && |at| == |r|
    && (forall i | 0 <= i < |r| :: at[i] < |values| && values[at[i]] == r[i])
    && (forall i, j | 0 <= i < |r| && 0 <= j < at[i] :: values[j] != r[i])
    && (forall i, j | 0 <= i < j < |r| :: at[i] < at[j])
  }

  lemma KeepsLonger(values: seq<NetworkRef>, r: seq<NetworkRef>, at: seq<nat>)
    requires values != [] && Keeps(values[..|values|-1], r, at)
    ensures Keeps(values, r, at)
  {
    var front := values[..|values|-1];
    assert forall j | 0 <= j < |front| :: values[j] == front[j];
  }

  lemma KeepsLast(values: seq<NetworkRef>, r: seq<NetworkRef>, at: seq<nat>)
    requires values != [] && Keeps(values[..|values|-1], r, at)
    requires values[|values|-1] !in values[..|values|-1]
    ensures Keeps(values, r + [values[|values|-1]], at + [|values| - 1])
  {
    var front := values[..|values|-1];
    assert forall j | 0 <= j < |front| :: values[j] == front[j] && front[j] in front;
  }

  /** References keep their value and relative order. */
  lemma {:induction false} UniqueRefsKeepsOrder(values: seq<NetworkRef>) returns (at: seq<nat>)
    ensures Keeps(values, UniqueRefs(values), at)
    decreases |values|
  {
    if values == [] {
      at := [];
    } else {
      var n := |values| - 1;
      at := UniqueRefsKeepsOrder(values[..n]);
      if values[n] == BLANK || values[n] in UniqueRefs(values[..n]) {
        KeepsLonger(values, UniqueRefs(values[..n]), at);
      } else {
        KeepsLast(values, UniqueRefs(values[..n]), at);
        at := at + [n];
      }
    }
  }

  /** A list that is already unique and has no blank reference stays as it is. */
  lemma {:induction false} UniqueRefsFixed(r: seq<NetworkRef>)
    requires BLANK !in r && forall i, j | 0 <= i < j < |r| :: r[i] != r[j]
    ensures UniqueRefs(r) == r
    decreases |r|
  {
    if r != [] {
      var n := |r| - 1;
      UniqueRefsFixed(r[..n]);
      assert r == r[..n] + [r[n]];
    }
  }

  // ----- merging attempts into the origin hop -----

  /** What one legacy record contributes. */
  datatype Item = Item(attempt: Attempt, timings: seq<Timing>)

  function Digit(n: nat): char
    requires n < 10
  {
    "0123456789"[n]
  }

  function Digits(n: nat): (s: string)
    ensures |s| >= 1
  {
    if n < 10 then [Digit(n)] else Digits(n / 10) + [Digit(n % 10)]
  }

  /** The %03d verb. */
  function Padded(n: nat): (s: string)
    ensures |s| >= 3
  {
    var d := Digits(n);
    if |d| == 1 then "00" + d else if |d| == 2 then "0" + d else d
  }

  function Prefix(kind: AttemptKind): string {
    match kind
    case KindDns => "attempt-dns-"
    case KindRoute => "attempt-route-"
    case KindTcp => "attempt-tcp-"
    case KindTls => "attempt-tls-"
  }

  function ItemOf(kind: AttemptKind, a: Artifact, index: nat): (i: Item)
    ensures i.attempt.id != ""
  {
    var ref := ValueRef(a.ref, Prefix(kind) + Padded(index + 1));
    assert |Prefix(kind) + Padded(index + 1)| > 0;
    Item(Attempt(ref.attemptID, ref.pathID, ref.hopID, kind, (kind == KindTcp || kind == KindTls) && a.selected, a.data),
         match kind
         case KindDns => [Timing(ref, "dns", a.duration)]
         case KindRoute => []
         case KindTcp => [Timing(ref, "tcp", a.duration)]
         case KindTls => [Timing(ref, "tcp", a.duration), Timing(ref, "tls_handshake", a.handshake)])
  }

  function ItemsOf(kind: AttemptKind, artifacts: seq<Artifact>): seq<Item> {
    seq(|artifacts|, i requires 0 <= i < |artifacts| => ItemOf(kind, artifacts[i], i))
  }

  function Items(s: State): seq<Item> {
    ItemsOf(KindDns, s.families) + ItemsOf(KindRoute, s.routes) + ItemsOf(KindTcp, s.tcp)
    + ItemsOf(KindTls, s.tls)
  }

  predicate HasID(attempts: seq<Attempt>, id: string) {
    exists i :: 0 <= i < |attempts| && attempts[i].id == id
  }

  predicate HasTiming(timings: seq<Timing>, t: Timing) {
    exists i :: 0 <= i < |timings| && timings[i].ref == t.ref && timings[i].phase == t.phase
  }

  function AppendUniqueTiming(timings: seq<Timing>, t: Timing): seq<Timing> {
    if t.duration <= 0 || HasTiming(timings, t) then timings else timings + [t]
  }

  function AppendTimings(timings: seq<Timing>, ts: seq<Timing>): seq<Timing> {
    if ts == [] then timings else AppendUniqueTiming(AppendTimings(timings, ts[..|ts|-1]), ts[|ts|-1])
  }

  function AppendAttempt(hop: Hop, a: Attempt): Hop {
    if a.id == "" || HasID(hop.attempts, a.id) then hop
    else hop.(attempts := hop.attempts + [a],
              selectedAttemptID := if a.selected then a.id else hop.selectedAttemptID)
  }

  function Absorb(hop: Hop, item: Item): Hop {
    var h := AppendAttempt(hop, item.attempt);
    h.(timings := AppendTimings(h.timings, item.timings))
  }

  function AbsorbAll(hop: Hop, items: seq<Item>): Hop {
    if items == [] then hop else Absorb(AbsorbAll(hop, items[..|items|-1]), items[|items|-1])
  }

  /** The loops of mergeLegacyAttempts with their map of attempt IDs already seen. */
  method AbsorbLoop(start: Hop, items: seq<Item>) returns (hop: Hop)
    ensures hop == AbsorbAll(start, items)
  {
    hop := start;
    var seen: set<string> := {};
    for i := 0 to |hop.attempts|
      invariant forall id :: id in seen <==> HasID(hop.attempts[..i], id)
    {
      assert forall id :: HasID(hop.attempts[..i+1], id) <==> HasID(hop.attempts[..i], id) || hop.attempts[i].id == id by {
        HasIDExtends(hop.attempts[..i], hop.attempts[i]);
        assert hop.attempts[..i+1] == hop.attempts[..i] + [hop.attempts[i]];
      }
      seen := seen + {hop.attempts[i].id};
    }
    assert hop.attempts[..|hop.attempts|] == hop.attempts;
    for i := 0 to |items|
      invariant hop == AbsorbAll(start, items[..i])
      invariant forall id :: id in seen <==> HasID(hop.attempts, id)
    {
      assert items[..i+1][..i] == items[..i];
      var a := items[i].attempt;
      if a.id != "" && a.id !in seen {
        HasIDExtends(hop.attempts, a);
        seen := seen + {a.id};
        hop := hop.(attempts := hop.attempts + [a]);
        if a.selected { hop := hop.(selectedAttemptID := a.id); }
      }
      hop := hop.(timings := AppendTimings(hop.timings, items[i].timings));
    }
    assert items[..|items|] == items;
  }

  lemma HasIDExtends(attempts: seq<Attempt>, a: Attempt)
    ensures forall id :: HasID(attempts + [a], id) <==> HasID(attempts, id) || a.id == id
  {
    forall id ensures HasID(attempts + [a], id) <==> HasID(attempts, id) || a.id == id {
      assert (attempts + [a])[|attempts|] == a;
      if HasID(attempts, id) {
        var i :| 0 <= i < |attempts| && attempts[i].id == id;
        assert (attempts + [a])[i].id == id;
      }
    }
  }

  // ----- the stable sort by attempt ID -----

  predicate Sorted(attempts: seq<Attempt>) {
    forall i, j | 0 <= i < j < |attempts| :: !Before(attempts[j].id, attempts[i].id)
  }

  /** Insertion after everything not greater: the step of a stable sort. */
  function Insert(sorted: seq<Attempt>, a: Attempt): seq<Attempt> {
    if sorted == [] || !Before(a.id, sorted[|sorted|-1].id) then sorted + [a]
    else Insert(sorted[..|sorted|-1], a) + [sorted[|sorted|-1]]
  }

  /** sort.SliceStable by ID. */
  function SortByID(attempts: seq<Attempt>): seq<Attempt> {
    if attempts == [] then [] else Insert(SortByID(attempts[..|attempts|-1]), attempts[|attempts|-1])
  }

  lemma {:induction false} InsertSorted(sorted: seq<Attempt>, a: Attempt)
    requires Sorted(sorted)
    ensures Sorted(Insert(sorted, a)) && multiset(Insert(sorted, a)) == multiset(sorted) + multiset{a}
    decreases |sorted|
  {
    if sorted != [] {
      var n := |sorted| - 1;
      var last, rest := sorted[n], sorted[..n];
      assert sorted == rest + [last];
      if Before(a.id, last.id) {
        InsertSorted(rest, a);
        BeforeTotal(a.id, last.id);
        var r := Insert(rest, a);
        forall i | 0 <= i < |r| ensures !Before(last.id, r[i].id) {
          assert r[i] in multiset(r);
          assert r[i] == a || r[i] in rest;
        }
      } else {
        forall i | 0 <= i < |sorted| ensures !Before(a.id, sorted[i].id) {
          if i < n { NotBeforeTransitive(sorted[i].id, last.id, a.id); }
        }
      }
    }
  }

  lemma {:induction false} SortSorts(attempts: seq<Attempt>)
    ensures Sorted(SortByID(attempts)) && multiset(SortByID(attempts)) == multiset(attempts)
    decreases |attempts|
  {
    if attempts != [] {
      var n := |attempts| - 1;
      assert attempts == attempts[..n] + [attempts[n]];
      SortSorts(attempts[..n]);
      InsertSorted(SortByID(attempts[..n]), attempts[n]);
    }
  }

  lemma {:induction false} SortFixed(attempts: seq<Attempt>)
    requires Sorted(attempts)
    ensures SortByID(attempts) == attempts
    decreases |attempts|
  {
    if attempts != [] {
      var n := |attempts| - 1;
      assert attempts == attempts[..n] + [attempts[n]];
      SortFixed(attempts[..n]);
    }
  }

  // ----- the origin hop -----

  datatype Spot = Spot(paths: seq<Path>, path: nat, hop: nat)

  predicate IsSpot(s: Spot) {
    && s.path < |s.paths| && s.paths[s.path].id == DIRECT
    && s.hop < |s.paths[s.path].hops| && s.paths[s.path].hops[s.hop].id == ORIGIN
    && (forall p | 0 <= p < s.path :: s.paths[p].id != DIRECT)
    && (forall h | 0 <= h < s.hop :: s.paths[s.path].hops[h].id != ORIGIN)
  }

  function FindPath(paths: seq<Path>): (i: nat)
    ensures i <= |paths|
    ensures forall p | 0 <= p < i :: paths[p].id != DIRECT
    ensures i < |paths| ==> paths[i].id == DIRECT
  {
    if paths == [] || paths[0].id == DIRECT then 0
    else
      var i := FindPath(paths[1..]);
      assert forall p | 1 <= p < i + 1 :: paths[p] == paths[1..][p - 1];
      i + 1
  }

  function FindHop(hops: seq<Hop>): (i: nat)
    ensures i <= |hops|
    ensures forall h | 0 <= h < i :: hops[h].id != ORIGIN
    ensures i < |hops| ==> hops[i].id == ORIGIN
  {
    if hops == [] || hops[0].id == ORIGIN then 0
    else
      var i := FindHop(hops[1..]);
      assert forall h | 1 <= h < i + 1 :: hops[h] == hops[1..][h - 1];
      i + 1
  }

  const NEW_HOP: Hop := Hop(ORIGIN, DIRECT, 0, "", [], [], 0)

  function EnsureHop(paths: seq<Path>): (s: Spot)
    ensures IsSpot(s)
    ensures |paths| <= |s.paths|
  {
    var p := FindPath(paths);
    if p == |paths| then Spot(paths + [Path(DIRECT, ClientEffective, 0, [NEW_HOP], 0)], p, 0)
    else
      var h := FindHop(paths[p].hops);
      if h < |paths[p].hops| then Spot(paths, p, h)
      else Spot(paths[p := paths[p].(hops := paths[p].hops + [NEW_HOP])], p, h)
  }

  lemma EnsureHopFixed(s: Spot)
    requires IsSpot(s)
    ensures EnsureHop(s.paths) == s
  {
  }

  function MergeHop(hop: Hop, items: seq<Item>): Hop {
    var h := AbsorbAll(hop, items);
    h.(attempts := SortByID(h.attempts))
  }

  function PutHop(s: Spot, hop: Hop): seq<Path>
    requires IsSpot(s)
  {
    s.paths[s.path := s.paths[s.path].(hops := s.paths[s.path].hops[s.hop := hop])]
  }

  /** mergeLegacyAttempts. */
  function MergeLegacyAttempts(paths: seq<Path>, s: State): seq<Path> {
    var spot := EnsureHop(paths);
    PutHop(spot, MergeHop(spot.paths[spot.path].hops[spot.hop], Items(s)))
  }
}
