/** The correlation pass: total, reference-preserving and idempotent. */
module CorrelationTheorems {
  import opened Wrappers
  import opened Text
  import opened Model
  import opened Correlation

  // ----- the pass over the paths -----

  function AdjustRole(p: Path, s: State): Path {
    if p.id == DIRECT && (s.proxySelected || (s.httpTarget && !s.addressMatrix)) then p.(role := AuxiliaryDirect) else p
  }

  function NumberHops(hops: seq<Hop>): seq<Hop> {
    seq(|hops|, i requires 0 <= i < |hops| => hops[i].(sequence := i + 1))
  }

  function Renumbered(paths: seq<Path>, s: State): seq<Path> {
    seq(|paths|, i requires 0 <= i < |paths| =>
      AdjustRole(paths[i], s).(sequence := i + 1, hops := NumberHops(paths[i].hops)))
  }

  function CorrelatedPaths(s: State): seq<Path> {
    Renumbered(MergeLegacyAttempts(if s.paths == [] then [InitialDirectPath(s)] else s.paths, s), s)
  }

  // ----- the pass over the checks -----

  function FirstPathRef(paths: seq<Path>): NetworkRef {
    if paths == [] then NetworkRef(DIRECT, ORIGIN, "")
    else if paths[0].hops == [] then NetworkRef(paths[0].id, "", "")
    else NetworkRef(paths[0].id, paths[0].hops[0].id, "")
  }

  /** The references the operations of one kind carry, in order. */
  function Refs(artifacts: seq<Artifact>): seq<NetworkRef> {
    if artifacts == [] then []
    else
      var n := |artifacts| - 1;
      Refs(artifacts[..n]) + (if artifacts[n].ref.Some? then [artifacts[n].ref.value] else [])
  }

  /** The references recorded by the operations of a check. */
  function OperationRefs(s: State, id: CheckID): seq<NetworkRef> {
    match id
    case Dns => Refs(s.families)
    case Route => Refs(s.routes)
    case Tcp => Refs(s.tcp)
    case Tls => Refs(s.tls)
    case Http => s.httpRefs
    case _ => []
  }

  function RefsForCheck(s: State, id: CheckID, paths: seq<Path>): (r: seq<NetworkRef>)
    ensures r != []
  {
    var refs := OperationRefs(s, id);
    if refs == [] then [FirstPathRef(paths)] else refs
  }

  function CheckRefs(s: State, r: CheckResult, paths: seq<Path>): (refs: seq<NetworkRef>)
    ensures refs != []
  {
    var refs := UniqueRefs(if r.networkRefs == [] then RefsForCheck(s, r.id, paths) else r.networkRefs);
    if refs == [] then [FirstPathRef(paths)] else refs
  }

  function Min(a: int, b: int): int {
    if a < b then a else b
  }

  function Linked(evidence: seq<Evidence>, refs: seq<NetworkRef>): (r: seq<Evidence>)
    requires refs != []
    ensures |r| == |evidence|
  {
    seq(|evidence|, i requires 0 <= i < |evidence| =>
      if evidence[i].networkRef.Some? then evidence[i]
      else evidence[i].(networkRef := Some(refs[Min(i, |refs| - 1)])))
  }

  function CorrelatedCheck(s: State, r: CheckResult, paths: seq<Path>): CheckResult {
    var refs := CheckRefs(s, r, paths);
    r.(networkRefs := refs, evidence := Linked(r.evidence, refs))
  }

  function CorrelatedChecks(s: State, checks: seq<CheckResult>, paths: seq<Path>): (r: seq<CheckResult>)
    ensures |r| == |checks|
  {
    seq(|checks|, i requires 0 <= i < |checks| => CorrelatedCheck(s, checks[i], paths))
  }

  /** The loop that gives references to the evidence of one result. */
  method LinkEvidence(start: seq<Evidence>, refs: seq<NetworkRef>) returns (evidence: seq<Evidence>)
    requires refs != []
    ensures evidence == Linked(start, refs)
  {
    evidence := start;
    for j := 0 to |start|
      invariant |evidence| == |start|
      invariant forall i | 0 <= i < j :: evidence[i] == Linked(start, refs)[i]
      invariant forall i | j <= i < |start| :: evidence[i] == start[i]
    {
      if evidence[j].networkRef.Some? { continue; }
      evidence := evidence[j := evidence[j].(networkRef := Some(refs[Min(j, |refs| - 1)]))];
    }
  }

  method CorrelatePaths(s: State) returns (paths: seq<Path>)
    ensures paths == CorrelatedPaths(s)
  {
    paths := s.paths;
    if |paths| == 0 { paths := [InitialDirectPath(s)]; }
    var spot := EnsureHop(paths);
    var hop := AbsorbLoop(spot.paths[spot.path].hops[spot.hop], Items(s));
    hop := hop.(attempts := SortByID(hop.attempts));
    paths := Renumbered(PutHop(spot, hop), s);
  }

  /** One turn of the loop over the results. */
  method CorrelateCheck(s: State, r: CheckResult, paths: seq<Path>) returns (c: CheckResult)
    ensures c == CorrelatedCheck(s, r, paths)
  {
    var refs := r.networkRefs;
    if |refs| == 0 { refs := RefsForCheck(s, r.id, paths); }
    refs := UniqueRefsLoop(refs);
    if |refs| == 0 { refs := [FirstPathRef(paths)]; }
    var evidence := LinkEvidence(r.evidence, refs);
    c := r.(networkRefs := refs, evidence := evidence);
  }

  method CorrelateChecks(s: State, checks: seq<CheckResult>, paths: seq<Path>) returns (result: seq<CheckResult>)
    ensures result == CorrelatedChecks(s, checks, paths)
  {
    result := checks;
    for i := 0 to |checks|
      invariant |result| == |checks|
      invariant forall j | 0 <= j < i :: result[j] == CorrelatedCheck(s, checks[j], paths)
      invariant forall j | i <= j < |checks| :: result[j] == checks[j]
    {
      var c := CorrelateCheck(s, result[i], paths);
      result := result[i := c];
    }
  }

  /** correlatedNetworkResult: the materialised paths and the linked results. */
  method CorrelatedNetworkResult(s: State, checks: seq<CheckResult>) returns (paths: seq<Path>, result: seq<CheckResult>)
    ensures paths == CorrelatedPaths(s)
    ensures result == CorrelatedChecks(s, checks, paths)
  {
    paths := CorrelatePaths(s);
    result := CorrelateChecks(s, checks, paths);
  }

  /** Total: every result and every evidence item ends with a reference, none
      repeated within a result, and nothing that was already there is changed. */
  lemma CorrelationTotal(s: State, checks: seq<CheckResult>, paths: seq<Path>, i: nat)
    requires i < |checks|
    ensures
      var r, c := checks[i], CorrelatedChecks(s, checks, paths)[i];
      && |c.networkRefs| >= 1
      && (forall a, b | 0 <= a < b < |c.networkRefs| :: c.networkRefs[a] != c.networkRefs[b])
      && (forall x | x in r.networkRefs && x != BLANK :: x in c.networkRefs)
      && ((exists x :: x in r.networkRefs && x != BLANK) ==> c.networkRefs == UniqueRefs(r.networkRefs))
      && |c.evidence| == |r.evidence|
      && (forall j | 0 <= j < |r.evidence| ::
            if r.evidence[j].networkRef.Some? then c.evidence[j] == r.evidence[j]
            else
              c.evidence[j] == r.evidence[j].(networkRef := Some(
                if j < |c.networkRefs| then c.networkRefs[j] else c.networkRefs[|c.networkRefs| - 1])))
      && c == r.(networkRefs := c.networkRefs, evidence := c.evidence)
  {
    var r := checks[i];
    var unique := UniqueRefs(r.networkRefs);
    if x :| x in r.networkRefs && x != BLANK {
      assert x in unique;
    }
  }

  // ----- idempotence -----

  lemma CheckIdempotent(s: State, r: CheckResult, paths: seq<Path>)
    ensures CorrelatedCheck(s, CorrelatedCheck(s, r, paths), paths) == CorrelatedCheck(s, r, paths)
  {
    var c := CorrelatedCheck(s, r, paths);
    if BLANK !in c.networkRefs {
      UniqueRefsFixed(c.networkRefs);
    } else {
      assert c.networkRefs == [BLANK];
      assert UniqueRefs([BLANK]) == [] by { assert [BLANK][..0] == []; }
    }
    assert Linked(c.evidence, c.networkRefs) == c.evidence;
  }

  /** A hop that has taken in a record already takes nothing more from it. */
  predicate Took(hop: Hop, item: Item) {
    && (item.attempt.id == "" || HasID(hop.attempts, item.attempt.id))
    && forall i | 0 <= i < |item.timings| :: item.timings[i].duration <= 0 || HasTiming(hop.timings, item.timings[i])
  }

  lemma {:induction false} TimingsGrow(timings: seq<Timing>, ts: seq<Timing>)
    ensures timings <= AppendTimings(timings, ts)
    ensures forall i | 0 <= i < |ts| :: ts[i].duration <= 0 || HasTiming(AppendTimings(timings, ts), ts[i])
    decreases |ts|
  {
    if ts != [] {
      var n := |ts| - 1;
      TimingsGrow(timings, ts[..n]);
      var before, after := AppendTimings(timings, ts[..n]), AppendTimings(timings, ts);
      if after != before { assert after[|before|] == ts[n]; }
      forall i | 0 <= i < |ts| ensures ts[i].duration <= 0 || HasTiming(after, ts[i]) {
        if i < n && ts[i].duration > 0 {
          assert ts[..n][i] == ts[i];
          TimingKept(before, after, ts[i]);
        }
      }
    }
  }

  lemma TimingKept(before: seq<Timing>, after: seq<Timing>, t: Timing)
    requires before <= after && HasTiming(before, t)
    ensures HasTiming(after, t)
  {
    var i :| 0 <= i < |before| && before[i].ref == t.ref && before[i].phase == t.phase;
    assert after[i] == before[i];
  }

  predicate Grows(a: Hop, b: Hop) {
    a.attempts <= b.attempts && a.timings <= b.timings && a.id == b.id
  }

  lemma TookKept(a: Hop, b: Hop, item: Item)
    requires Grows(a, b) && Took(a, item)
    ensures Took(b, item)
  {
    if HasID(a.attempts, item.attempt.id) {
      var i :| 0 <= i < |a.attempts| && a.attempts[i].id == item.attempt.id;
      assert b.attempts[i].id == item.attempt.id;
    }
    forall i | 0 <= i < |item.timings| && item.timings[i].duration > 0 ensures HasTiming(b.timings, item.timings[i]) {
      TimingKept(a.timings, b.timings, item.timings[i]);
    }
  }

  lemma AbsorbTakes(hop: Hop, item: Item)
    ensures Grows(hop, Absorb(hop, item)) && Took(Absorb(hop, item), item)
  {
    TimingsGrow(hop.timings, item.timings);
    HasIDExtends(hop.attempts, item.attempt);
  }

  lemma {:induction false} AbsorbAllTakes(hop: Hop, items: seq<Item>)
    ensures Grows(hop, AbsorbAll(hop, items))
    ensures forall i | 0 <= i < |items| :: Took(AbsorbAll(hop, items), items[i])
    decreases |items|
  {
    if items != [] {
      var n := |items| - 1;
      var before := AbsorbAll(hop, items[..n]);
      AbsorbAllTakes(hop, items[..n]);
      AbsorbTakes(before, items[n]);
      forall i | 0 <= i < n ensures Took(AbsorbAll(hop, items), items[i]) {
        assert items[..n][i] == items[i];
        TookKept(before, AbsorbAll(hop, items), items[i]);
      }
    }
  }

  lemma {:induction false} TimingsFixed(timings: seq<Timing>, ts: seq<Timing>)
    requires forall i | 0 <= i < |ts| :: ts[i].duration <= 0 || HasTiming(timings, ts[i])
    ensures AppendTimings(timings, ts) == timings
    decreases |ts|
  {
    if ts != [] { TimingsFixed(timings, ts[..|ts|-1]); }
  }

  lemma {:induction false} AbsorbAllFixed(hop: Hop, items: seq<Item>)
    requires forall i | 0 <= i < |items| :: Took(hop, items[i])
    ensures AbsorbAll(hop, items) == hop
    decreases |items|
  {
    if items != [] {
      var n := |items| - 1;
      assert forall i | 0 <= i < n :: items[..n][i] == items[i];
      AbsorbAllFixed(hop, items[..n]);
      TimingsFixed(hop.timings, items[n].timings);
    }
  }

  lemma SortKeepsIDs(attempts: seq<Attempt>, id: string)
    ensures HasID(SortByID(attempts), id) <==> HasID(attempts, id)
  {
    SortSorts(attempts);
    var sorted := SortByID(attempts);
    if HasID(attempts, id) {
      var i :| 0 <= i < |attempts| && attempts[i].id == id;
      assert attempts[i] in multiset(sorted);
      var j :| 0 <= j < |sorted| && sorted[j] == attempts[i];
    }
    if HasID(sorted, id) {
      var i :| 0 <= i < |sorted| && sorted[i].id == id;
      assert sorted[i] in multiset(attempts);
      var j :| 0 <= j < |attempts| && attempts[j] == sorted[i];
    }
  }

  lemma MergeHopFixed(hop: Hop, items: seq<Item>)
    ensures MergeHop(MergeHop(hop, items), items) == MergeHop(hop, items)
  {
    var all, once := AbsorbAll(hop, items), MergeHop(hop, items);
    AbsorbAllTakes(hop, items);
    forall i | 0 <= i < |items| ensures Took(once, items[i]) {
      assert Took(all, items[i]);
      SortKeepsIDs(all.attempts, items[i].attempt.id);
    }
    AbsorbAllFixed(once, items);
    SortSorts(all.attempts);
    SortFixed(once.attempts);
  }

  /** The hop number is the only thing a second pass could still rewrite. */
  lemma MergeIgnoresNumber(hop: Hop, items: seq<Item>, n: nat)
    ensures MergeHop(hop.(sequence := n), items) == MergeHop(hop, items).(sequence := n)
  {
    AbsorbIgnoresNumber(hop, items, n);
  }

  lemma {:induction false} AbsorbIgnoresNumber(hop: Hop, items: seq<Item>, n: nat)
    ensures AbsorbAll(hop.(sequence := n), items) == AbsorbAll(hop, items).(sequence := n)
    decreases |items|
  {
    if items != [] { AbsorbIgnoresNumber(hop, items[..|items|-1], n); }
  }

  lemma RenumberedFixed(paths: seq<Path>, s: State)
    ensures Renumbered(Renumbered(paths, s), s) == Renumbered(paths, s)
  {
    var once := Renumbered(paths, s);
    forall i | 0 <= i < |once|
      ensures AdjustRole(once[i], s).(sequence := i + 1, hops := NumberHops(once[i].hops)) == once[i]
    {
      assert NumberHops(once[i].hops) == once[i].hops;
    }
  }

  /** After the pass the origin hop is found where it was merged. */
  lemma SpotSurvives(spot: Spot, hop: Hop, s: State)
    requires IsSpot(spot) && hop.id == ORIGIN
    ensures IsSpot(Spot(Renumbered(PutHop(spot, hop), s), spot.path, spot.hop))
    ensures Renumbered(PutHop(spot, hop), s)[spot.path].hops[spot.hop] == hop.(sequence := spot.hop + 1)
  {
    var put := PutHop(spot, hop);
    var out := Renumbered(put, s);
    forall p | 0 <= p < |out| ensures out[p].id == spot.paths[p].id && |out[p].hops| == |spot.paths[p].hops| {
    }
    forall h | 0 <= h < |out[spot.path].hops|
      ensures h != spot.hop ==> out[spot.path].hops[h].id == spot.paths[spot.path].hops[h].id
    {
    }
  }

  /** Putting back the hop that is already there changes nothing. */
  lemma PutSame(spot: Spot)
    requires IsSpot(spot)
    ensures PutHop(spot, spot.paths[spot.path].hops[spot.hop]) == spot.paths
  {
    var p := spot.paths[spot.path];
    assert p.hops[spot.hop := p.hops[spot.hop]] == p.hops;
  }

  lemma PathsIdempotent(s: State)
    ensures CorrelatedPaths(s.(paths := CorrelatedPaths(s))) == CorrelatedPaths(s)
  {
    var start := if s.paths == [] then [InitialDirectPath(s)] else s.paths;
    var items, spot := Items(s), EnsureHop(start);
    var hop := spot.paths[spot.path].hops[spot.hop];
    var merged := MergeHop(hop, items);
    AbsorbAllTakes(hop, items);
    SpotSurvives(spot, merged, s);
    var again := Spot(CorrelatedPaths(s), spot.path, spot.hop);
    EnsureHopFixed(again);
    MergeIgnoresNumber(merged, items, spot.hop + 1);
    MergeHopFixed(hop, items);
    PutSame(again);
    SecondPass(s, again);
    RenumberedFixed(PutHop(spot, merged), s);
  }

  lemma SecondPass(s: State, again: Spot)
    requires IsSpot(again) && again.paths == CorrelatedPaths(s) && EnsureHop(again.paths) == again
    requires var hop := again.paths[again.path].hops[again.hop]; MergeHop(hop, Items(s)) == hop
    requires PutHop(again, again.paths[again.path].hops[again.hop]) == again.paths
    ensures CorrelatedPaths(s.(paths := again.paths)) == Renumbered(again.paths, s)
  {
    var t := s.(paths := again.paths);
    assert Items(t) == Items(s);
    assert MergeLegacyAttempts(again.paths, t) == again.paths;
  }

  /** Idempotent: applied to its own output the pass changes nothing, whether
      the state keeps its old paths or has taken over the new ones. */
  lemma CorrelationIdempotent(s: State, checks: seq<CheckResult>)
    ensures
      var paths := CorrelatedPaths(s);
      var result := CorrelatedChecks(s, checks, paths);
      && CorrelatedPaths(s.(paths := paths)) == paths
      && CorrelatedChecks(s, result, paths) == result
      && CorrelatedChecks(s.(paths := paths), result, paths) == result
  {
    var paths := CorrelatedPaths(s);
    PathsIdempotent(s);
    forall i | 0 <= i < |checks|
      ensures CorrelatedCheck(s, CorrelatedCheck(s, checks[i], paths), paths) == CorrelatedCheck(s, checks[i], paths)
      ensures CorrelatedCheck(s.(paths := paths), CorrelatedCheck(s, checks[i], paths), paths) == CorrelatedCheck(s, checks[i], paths)
    {
      CheckIdempotent(s, checks[i], paths);
    }
  }

  // ----- attempts -----

  predicate UniqueIDs(attempts: seq<Attempt>) {
    forall i, j | 0 <= i < j < |attempts| :: attempts[i].id != attempts[j].id
  }

  lemma {:induction false} AbsorbAllUnique(hop: Hop, items: seq<Item>)
    requires UniqueIDs(hop.attempts)
    ensures UniqueIDs(AbsorbAll(hop, items).attempts)
    decreases |items|
  {
    if items != [] { AbsorbAllUnique(hop, items[..|items|-1]); }
  }

  lemma {:induction false} InsertUnique(sorted: seq<Attempt>, a: Attempt)
    requires UniqueIDs(sorted) && !HasID(sorted, a.id)
    ensures UniqueIDs(Insert(sorted, a))
    ensures forall id :: HasID(Insert(sorted, a), id) <==> HasID(sorted, id) || a.id == id
    decreases |sorted|
  {
    HasIDExtends(sorted, a);
    if sorted != [] && Before(a.id, sorted[|sorted|-1].id) {
      var n := |sorted| - 1;
      HasIDExtends(sorted[..n], sorted[n]);
      assert sorted == sorted[..n] + [sorted[n]];
      InsertUnique(sorted[..n], a);
      HasIDExtends(Insert(sorted[..n], a), sorted[n]);
      assert !HasID(sorted[..n], sorted[n].id);
      LastUnique(Insert(sorted[..n], a), sorted[n]);
    } else {
      LastUnique(sorted, a);
    }
  }

  lemma LastUnique(attempts: seq<Attempt>, a: Attempt)
    requires UniqueIDs(attempts) && !HasID(attempts, a.id)
    ensures UniqueIDs(attempts + [a])
  {
  }

  lemma {:induction false} SortUnique(attempts: seq<Attempt>)
    requires UniqueIDs(attempts)
    ensures UniqueIDs(SortByID(attempts))
    decreases |attempts|
  {
    if attempts != [] {
      var n := |attempts| - 1;
      SortUnique(attempts[..n]);
      SortKeepsIDs(attempts[..n], attempts[n].id);
      InsertUnique(SortByID(attempts[..n]), attempts[n]);
    }
  }

  /** Where an attempt of the merged hop can come from. */
  predicate FromItems(a: Attempt, items: seq<Item>) {
    exists i :: 0 <= i < |items| && items[i].attempt == a
  }

  lemma {:induction false} AbsorbAllSources(hop: Hop, items: seq<Item>)
    ensures forall a | a in AbsorbAll(hop, items).attempts :: a in hop.attempts || FromItems(a, items)
    decreases |items|
  {
    if items != [] {
      var n := |items| - 1;
      AbsorbAllSources(hop, items[..n]);
      forall a | a in AbsorbAll(hop, items).attempts ensures a in hop.attempts || FromItems(a, items) {
        if FromItems(a, items[..n]) {
          var i :| 0 <= i < n && items[..n][i].attempt == a;
          assert items[i].attempt == a;
        } else if a !in hop.attempts {
          assert items[n].attempt == a;
        }
      }
    }
  }

  lemma MergedMembers(hop: Hop, items: seq<Item>)
    ensures forall a :: a in MergeHop(hop, items).attempts <==> a in AbsorbAll(hop, items).attempts
  {
    var all := AbsorbAll(hop, items).attempts;
    SortSorts(all);
    forall a ensures a in SortByID(all) <==> a in all {
      assert a in SortByID(all) <==> a in multiset(SortByID(all));
      assert a in all <==> a in multiset(all);
    }
  }

  /** What merging makes of a hop's attempts. */
  predicate Merged(before: seq<Attempt>, items: seq<Item>, after: seq<Attempt>) {
    && Sorted(after)
    && (UniqueIDs(before) ==> UniqueIDs(after))
    && (forall a | a in before :: a in after)
    && (forall a | a in after :: a in before || FromItems(a, items))
    && (forall i | 0 <= i < |items| && items[i].attempt.id != "" :: HasID(after, items[i].attempt.id))
  }

  lemma MergeHopMerges(hop: Hop, items: seq<Item>)
    ensures Merged(hop.attempts, items, MergeHop(hop, items).attempts)
  {
    var all := AbsorbAll(hop, items).attempts;
    SortSorts(all);
    AbsorbAllTakes(hop, items);
    AbsorbAllSources(hop, items);
    MergedMembers(hop, items);
    if UniqueIDs(hop.attempts) {
      AbsorbAllUnique(hop, items);
      SortUnique(all);
    }
    forall i | 0 <= i < |items| && items[i].attempt.id != "" ensures HasID(SortByID(all), items[i].attempt.id) {
      SortKeepsIDs(all, items[i].attempt.id);
    }
  }

  /** The attempts of the origin hop of the direct path. */
  function OriginOf(paths: seq<Path>): seq<Attempt> {
    var spot := EnsureHop(paths);
    spot.paths[spot.path].hops[spot.hop].attempts
  }

  /** After the pass the graph has an origin hop on a direct path. Its attempts are
      sorted by ID and unique if they started so; none is lost, every record's ID
      is among them, and there is nothing else. */
  lemma OriginAttempts(s: State)
    ensures EnsureHop(CorrelatedPaths(s)).paths == CorrelatedPaths(s)
    ensures
      var start := if s.paths == [] then [InitialDirectPath(s)] else s.paths;
      Merged(OriginOf(start), Items(s), OriginOf(CorrelatedPaths(s)))
    ensures forall i | 0 <= i < |Items(s)| :: HasID(OriginOf(CorrelatedPaths(s)), Items(s)[i].attempt.id)
  {
    var start := if s.paths == [] then [InitialDirectPath(s)] else s.paths;
    var spot := EnsureHop(start);
    var hop := spot.paths[spot.path].hops[spot.hop];
    AbsorbAllTakes(hop, Items(s));
    SpotSurvives(spot, MergeHop(hop, Items(s)), s);
    EnsureHopFixed(Spot(CorrelatedPaths(s), spot.path, spot.hop));
    MergeHopMerges(hop, Items(s));
    ItemsNamed(s);
  }

  lemma ItemsNamed(s: State)
    ensures forall i | 0 <= i < |Items(s)| :: Items(s)[i].attempt.id != ""
  {
  }
}
