/** What the correlation pass puts where, spelled out over the recorded operations. */
module CorrelationMeaning {
  import opened Wrappers
  import opened Model
  import opened Correlation
  import opened CorrelationTheorems

  // ----- the references of a result -----

  predicate SomeRef(artifacts: seq<Artifact>, x: NetworkRef) {
    exists i :: 0 <= i < |artifacts| && artifacts[i].ref == Some(x)
  }

  lemma {:induction false} RefsMembers(artifacts: seq<Artifact>)
    ensures forall x :: x in Refs(artifacts) <==> SomeRef(artifacts, x)
    decreases |artifacts|
  {
    if artifacts != [] {
      var n := |artifacts| - 1;
      RefsMembers(artifacts[..n]);
      forall x ensures x in Refs(artifacts) <==> SomeRef(artifacts, x) {
        if SomeRef(artifacts[..n], x) {
          var i :| 0 <= i < n && artifacts[..n][i].ref == Some(x);
          assert artifacts[i].ref == Some(x);
        }
        if SomeRef(artifacts, x) && artifacts[n].ref != Some(x) {
          var i :| 0 <= i < |artifacts| && artifacts[i].ref == Some(x);
          assert artifacts[..n][i].ref == Some(x);
        }
      }
    }
  }

  /** A reference that the operations of a check recorded: the DNS families for the
      DNS check, and so on; no other check has operations of its own. */
  predicate Recorded(s: State, id: CheckID, x: NetworkRef) {
    match id
    case Dns => SomeRef(s.families, x)
    case Route => SomeRef(s.routes, x)
    case Tcp => SomeRef(s.tcp, x)
    case Tls => SomeRef(s.tls, x)
    case Http => x in s.httpRefs
    case _ => false
  }

  /** The place every path graph has: the first hop of its first path. */
  predicate IsFirstPlace(paths: seq<Path>, x: NetworkRef) {
    x.attemptID == ""
    && if |paths| == 0 then x.pathID == "path-direct" && x.hopID == "hop-origin"
       else x.pathID == paths[0].id && x.hopID == if |paths[0].hops| == 0 then "" else paths[0].hops[0].id
  }

  lemma OperationMembers(s: State, id: CheckID)
    ensures forall x :: x in OperationRefs(s, id) <==> Recorded(s, id, x)
  {
    RefsMembers(s.families);
    RefsMembers(s.routes);
    RefsMembers(s.tcp);
    RefsMembers(s.tls);
  }

  /** A result without references of its own gets exactly the non-blank ones that
      the operations of its check recorded, or else the first place of the graph. */
  lemma MissingReferences(s: State, r: CheckResult, paths: seq<Path>)
    requires r.networkRefs == []
    ensures
      var refs := CorrelatedCheck(s, r, paths).networkRefs;
      if exists x :: x != BLANK && Recorded(s, r.id, x) then forall x :: x in refs <==> x != BLANK && Recorded(s, r.id, x)
      else |refs| == 1 && IsFirstPlace(paths, refs[0])
  {
    var recorded := OperationRefs(s, r.id);
    var unique := UniqueRefs(recorded);
    OperationMembers(s, r.id);
    FirstUnique(FirstPathRef(paths));
    if unique != [] { assert unique[0] in unique; }
    if y :| y != BLANK && Recorded(s, r.id, y) { assert y in unique; }
  }

  lemma FirstUnique(x: NetworkRef)
    ensures UniqueRefs([x]) == if x == BLANK then [] else [x]
  {
    assert [x][..0] == [];
  }

  // ----- the path graph -----

  /** The graph before the pass; without one, the direct path to the target. */
  predicate IsStart(s: State, start: seq<Path>) {
    if s.paths != [] then start == s.paths
    else
      && |start| == 1 && start[0].id == "path-direct" && |start[0].hops| == 1 && start[0].hops[0].id == "hop-origin"
      && start[0].hops[0].pathID == "path-direct" && start[0].hops[0].attempts == [] && start[0].hops[0].timings == []
      && start[0].role == (if s.addressMatrix then AddressMatrix else if s.httpTarget then AuxiliaryDirect else ClientEffective)
  }

  /** A path after the pass: numbered, with numbered hops, and auxiliary if it is the
      direct one and not the route of the request; its hops are otherwise those of
      before, but for the hop at one place. */
  predicate PathPassed(s: State, before: Path, after: Path, p: nat, origin: int) {
    && after.id == before.id && after.data == before.data && after.sequence == p + 1
    && after.role == (if before.id == "path-direct" && (s.proxySelected || (s.httpTarget && !s.addressMatrix))
                      then AuxiliaryDirect else before.role)
    && |after.hops| == |before.hops|
    && forall h | 0 <= h < |after.hops| ::
         && after.hops[h].sequence == h + 1
         && (h != origin ==> after.hops[h] == before.hops[h].(sequence := h + 1))
  }

  /** Only the origin hop of the direct path takes in records. */
  lemma PathsPassed(s: State)
    ensures
      var start := if s.paths == [] then [InitialDirectPath(s)] else s.paths;
      var spot, out := EnsureHop(start), CorrelatedPaths(s);
      && IsStart(s, start) && |out| == |spot.paths|
      && (forall p | 0 <= p < |out| ::
            PathPassed(s, spot.paths[p], out[p], p, if p == spot.path then spot.hop else -1))
      && out[spot.path].hops[spot.hop] ==
           MergeHop(spot.paths[spot.path].hops[spot.hop], Items(s)).(sequence := spot.hop + 1)
  {
  }

  /** Finding the origin hop adds at most a path or a hop, and changes nothing else. */
  lemma EnsureAdds(paths: seq<Path>)
    ensures
      var spot := EnsureHop(paths);
      && |paths| <= |spot.paths| <= |paths| + 1
      && (forall p | 0 <= p < |paths| && p != spot.path :: spot.paths[p] == paths[p])
      && (spot.path < |paths| ==>
            && spot.paths[spot.path] == paths[spot.path].(hops := spot.paths[spot.path].hops)
            && paths[spot.path].hops <= spot.paths[spot.path].hops
            && |spot.paths[spot.path].hops| <= |paths[spot.path].hops| + 1)
      && spot.paths[spot.path].id == "path-direct" && spot.paths[spot.path].hops[spot.hop].id == "hop-origin"
  {
  }

  // ----- the records -----

  /** The reference of a record, its gaps filled in. */
  predicate Filled(ref: Option<NetworkRef>, x: NetworkRef, name: string) {
    && x.pathID == (if ref.Some? && ref.value.pathID != "" then ref.value.pathID else "path-direct")
    && x.hopID == (if ref.Some? && ref.value.hopID != "" then ref.value.hopID else "hop-origin")
    && x.attemptID == (if ref.Some? && ref.value.attemptID != "" then ref.value.attemptID else name)
  }

  function NameOf(kind: AttemptKind, index: nat): string {
    match kind
    case KindDns => "attempt-dns-" + Padded(index + 1)
    case KindRoute => "attempt-route-" + Padded(index + 1)
    case KindTcp => "attempt-tcp-" + Padded(index + 1)
    case KindTls => "attempt-tls-" + Padded(index + 1)
  }

  lemma PaddedSpelled()
    ensures Padded(7) == "007" && Padded(42) == "042" && Padded(123) == "123" && Padded(4567) == "4567"
  {
    assert Digits(42) == "42";
    assert Digits(12) == "12" && Digits(123) == "123";
    assert Digits(45) == "45" && Digits(456) == "456" && Digits(4567) == "4567";
  }

  /** What a record contributes: an attempt of its kind, selected only for TCP and
      TLS, and the durations of its phases, all under one reference. */
  lemma RecordContributes(kind: AttemptKind, a: Artifact, index: nat)
    ensures
      var item := ItemOf(kind, a, index);
      var x := NetworkRef(item.attempt.pathID, item.attempt.hopID, item.attempt.id);
      && Filled(a.ref, x, NameOf(kind, index))
      && item.attempt.kind == kind && item.attempt.data == a.data
      && item.attempt.selected == ((kind == KindTcp || kind == KindTls) && a.selected)
      && item.timings == (match kind
           case KindDns => [Timing(x, "dns", a.duration)]
           case KindRoute => []
           case KindTcp => [Timing(x, "tcp", a.duration)]
           case KindTls => [Timing(x, "tcp", a.duration), Timing(x, "tls_handshake", a.handshake)])
  {
  }

  /** The records are taken in the order DNS, route, TCP, TLS, each list in its own. */
  lemma RecordsInOrder(s: State, i: nat)
    ensures |Items(s)| == |s.families| + |s.routes| + |s.tcp| + |s.tls|
    ensures i < |s.families| ==> Items(s)[i] == ItemOf(KindDns, s.families[i], i)
    ensures i < |s.routes| ==> Items(s)[|s.families| + i] == ItemOf(KindRoute, s.routes[i], i)
    ensures i < |s.tcp| ==> Items(s)[|s.families| + |s.routes| + i] == ItemOf(KindTcp, s.tcp[i], i)
    ensures i < |s.tls| ==> Items(s)[|s.families| + |s.routes| + |s.tcp| + i] == ItemOf(KindTls, s.tls[i], i)
  {
  }

  /** Taking in one more record: its attempt is appended if its ID is new, and is
      then the selected one if it says so; of its durations, those that are positive
      and not known yet under their reference and phase. */
  lemma OneMoreRecord(hop: Hop, items: seq<Item>, item: Item)
    ensures
      var before, after := AbsorbAll(hop, items), AbsorbAll(hop, items + [item]);
      var isNew := item.attempt.id != "" && forall i | 0 <= i < |before.attempts| :: before.attempts[i].id != item.attempt.id;
      && after.attempts == (if isNew then before.attempts + [item.attempt] else before.attempts)
      && after.selectedAttemptID ==
           (if isNew && item.attempt.selected then item.attempt.id else before.selectedAttemptID)
      && after.id == before.id && after.pathID == before.pathID && after.data == before.data
  {
    assert (items + [item])[..|items|] == items;
  }

  predicate FromTimings(t: Timing, items: seq<Item>) {
    exists i :: 0 <= i < |items| && t in items[i].timings
  }

  lemma {:induction false} AppendSources(timings: seq<Timing>, ts: seq<Timing>)
    ensures forall t | t in AppendTimings(timings, ts) :: t in timings || (t in ts && t.duration > 0)
    decreases |ts|
  {
    if ts != [] {
      AppendSources(timings, ts[..|ts|-1]);
      assert ts == ts[..|ts|-1] + [ts[|ts|-1]];
    }
  }

  lemma {:induction false} TimingSources(hop: Hop, items: seq<Item>)
    ensures hop.timings <= AbsorbAll(hop, items).timings
    ensures forall t | t in AbsorbAll(hop, items).timings :: t in hop.timings || (t.duration > 0 && FromTimings(t, items))
    decreases |items|
  {
    if items != [] {
      var n := |items| - 1;
      var before := AbsorbAll(hop, items[..n]);
      TimingSources(hop, items[..n]);
      TimingsGrow(before.timings, items[n].timings);
      AppendSources(before.timings, items[n].timings);
      forall t | t in AbsorbAll(hop, items).timings ensures t in hop.timings || (t.duration > 0 && FromTimings(t, items)) {
        if t in before.timings && t !in hop.timings {
          var i :| 0 <= i < n && t in items[..n][i].timings;
          assert t in items[i].timings;
        } else if t !in before.timings {
          assert t in items[n].timings;
        }
      }
    }
  }

  /** The origin hop's durations: those of before, and of each record's positive
      ones one under its reference and phase; there are no others. */
  lemma OriginTimings(hop: Hop, items: seq<Item>, i: nat, j: nat)
    ensures hop.timings <= MergeHop(hop, items).timings
    ensures forall t | t in MergeHop(hop, items).timings :: t in hop.timings || (t.duration > 0 && FromTimings(t, items))
    ensures i < |items| && j < |items[i].timings| && items[i].timings[j].duration > 0 ==>
      HasTiming(MergeHop(hop, items).timings, items[i].timings[j])
  {
    TimingSources(hop, items);
    AbsorbAllTakes(hop, items);
    if i < |items| { assert Took(AbsorbAll(hop, items), items[i]); }
  }
}
