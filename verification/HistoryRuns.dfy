/** The store over many saves: what pruning at every save keeps. */
module HistoryRuns {
  import opened Text
  import opened Timestamps
  import opened History

  lemma {:induction false} RankedFixed(rows: seq<Row>)
    requires Descending(rows)
    ensures Ranked(rows) == rows
    decreases |rows|
  {
    if rows != [] {
      var n := |rows| - 1;
      RankedFixed(rows[..n]);
      InsertLast(rows[..n], rows[n]);
      assert rows == rows[..n] + [rows[n]];
    }
  }

  lemma {:induction false} InsertLast(rows: seq<Row>, r: Row)
    requires forall i | 0 <= i < |rows| :: Newer(rows[i], r)
    ensures Insert(rows, r) == rows + [r]
    decreases |rows|
  {
    if rows != [] {
      NewerTotal(r, rows[0]);
      InsertLast(rows[1..], r);
      assert rows == [rows[0]] + rows[1..];
    }
  }

  /** A row that fell out of the first n cannot come back. */
  lemma {:induction false} InsertFirst(rows: seq<Row>, r: Row, n: nat)
    ensures First(Insert(First(rows, n), r), n) == First(Insert(rows, r), n)
    decreases |rows|
  {
    if rows != [] && n > 0 && !Newer(r, rows[0]) {
      InsertFirst(rows[1..], r, n - 1);
      var kept := First(rows, n);
      assert kept[0] == rows[0] && kept[1..] == First(rows[1..], n - 1);
      FirstCons(rows[0], Insert(kept[1..], r), n);
      FirstCons(rows[0], Insert(rows[1..], r), n);
    }
  }

  lemma FirstCons(x: Row, rows: seq<Row>, n: nat)
    requires n > 0
    ensures First([x] + rows, n) == [x] + First(rows, n - 1)
  {
  }

  lemma RankedAppends(rows: seq<Row>, r: Row)
    ensures Ranked(rows + [r]) == Insert(Ranked(rows), r)
  {
    assert (rows + [r])[..|rows|] == rows;
  }

  lemma OneMore(runs: seq<Row>, r: Row, n: nat)
    requires UniqueIDs(runs)
    ensures Prune(Prune(runs, n) + [r], n) == Prune(runs + [r], n)
  {
    RankedSorts(runs);
    RankedFixed(Prune(runs, n));
    RankedAppends(Prune(runs, n), r);
    RankedAppends(runs, r);
    InsertFirst(Ranked(runs), r, n);
  }

  lemma Fresh(runs: seq<Row>, r: Row, n: nat)
    requires UniqueIDs(runs + [r])
    ensures UniqueIDs(runs) && Upsert(Prune(runs, n), r) == Prune(runs, n) + [r]
  {
    var all := runs + [r];
    forall i, j | 0 <= i < j < |runs| ensures runs[i].id != runs[j].id { assert all[i] == runs[i] && all[j] == runs[j]; }
    RankedSorts(runs);
    var before := Prune(runs, n);
    forall i | 0 <= i < |before| ensures before[i].id != r.id {
      assert before[i] == Ranked(runs)[i];
      assert before[i] in multiset(runs);
      var j :| 0 <= j < |runs| && runs[j] == before[i];
      assert all[j] == runs[j] && all[|runs|] == r;
    }
  }

  // ----- ranking is canonical -----

  lemma TailMembers(a: seq<Row>)
    requires a != []
    ensures multiset(a[1..]) == multiset(a) - multiset{a[0]}
  {
    assert a == [a[0]] + a[1..];
  }

  lemma SameFirst(a: seq<Row>, b: seq<Row>)
    requires Descending(a) && Descending(b) && multiset(a) == multiset(b) && a != [] && b != []
    ensures a[0] == b[0]
  {
    assert a[0] in multiset(b) && b[0] in multiset(a);
    var i :| 0 <= i < |b| && b[i] == a[0];
    var j :| 0 <= j < |a| && a[j] == b[0];
    NewerTotal(a[0], b[0]);
  }

  lemma {:induction false} DescendingUnique(a: seq<Row>, b: seq<Row>)
    requires Descending(a) && Descending(b) && multiset(a) == multiset(b)
    ensures a == b
    decreases |a|
  {
    assert |a| == |multiset(a)| == |multiset(b)| == |b|;
    if a != [] {
      SameFirst(a, b);
      TailMembers(a);
      TailMembers(b);
      DescendingUnique(a[1..], b[1..]);
      assert a == [a[0]] + a[1..] && b == [b[0]] + b[1..];
    }
  }

  lemma RankedCanonical(a: seq<Row>, b: seq<Row>)
    requires UniqueIDs(a) && UniqueIDs(b) && multiset(a) == multiset(b)
    ensures Ranked(a) == Ranked(b)
  {
    RankedSorts(a);
    RankedSorts(b);
    DescendingUnique(Ranked(a), Ranked(b));
  }

  // ----- the rows of other IDs -----

  function Without(rows: seq<Row>, id: string): seq<Row> {
    if rows == [] then []
    else (if rows[0].id == id then [] else [rows[0]]) + Without(rows[1..], id)
  }

  predicate HasID(rows: seq<Row>, id: string) {
    exists i :: 0 <= i < |rows| && rows[i].id == id
  }

  lemma {:induction false} WithoutCounts(rows: seq<Row>, id: string)
    ensures forall r :: multiset(Without(rows, id))[r] == if r.id == id then 0 else multiset(rows)[r]
    decreases |rows|
  {
    if rows != [] {
      WithoutCounts(rows[1..], id);
      assert rows == [rows[0]] + rows[1..];
    }
  }

  lemma {:induction false} WithoutMembers(rows: seq<Row>, id: string)
    ensures forall r :: r in Without(rows, id) <==> r in rows && r.id != id
    decreases |rows|
  {
    if rows != [] {
      WithoutMembers(rows[1..], id);
      assert rows == [rows[0]] + rows[1..];
    }
  }

  lemma {:induction false} WithoutDescending(rows: seq<Row>, id: string)
    requires Descending(rows)
    ensures Descending(Without(rows, id))
    decreases |rows|
  {
    if rows != [] {
      var rest := Without(rows[1..], id);
      WithoutDescending(rows[1..], id);
      WithoutMembers(rows[1..], id);
      forall i | 0 <= i < |rest| ensures Newer(rows[0], rest[i]) {
        assert rest[i] in rows[1..];
      }
    }
  }

  lemma {:induction false} WithoutUnique(rows: seq<Row>, id: string)
    requires UniqueIDs(rows)
    ensures UniqueIDs(Without(rows, id))
    decreases |rows|
  {
    if rows != [] {
      var rest := Without(rows[1..], id);
      WithoutUnique(rows[1..], id);
      WithoutMembers(rows[1..], id);
      forall i | 0 <= i < |rest| ensures rows[0].id != rest[i].id {
        assert rest[i] in rows[1..];
      }
    }
  }

  lemma {:induction false} WithoutConcat(a: seq<Row>, b: seq<Row>, id: string)
    ensures Without(a + b, id) == Without(a, id) + Without(b, id)
    decreases |a|
  {
    if a == [] {
      assert a + b == b;
    } else {
      var head: seq<Row> := if a[0].id == id then [] else [a[0]];
      WithoutConcat(a[1..], b, id);
      assert (a + b)[1..] == a[1..] + b;
      assert Without(a + b, id) == head + (Without(a[1..], id) + Without(b, id));
    }
  }

  lemma {:induction false} WithoutAbsent(rows: seq<Row>, id: string)
    requires !HasID(rows, id)
    ensures Without(rows, id) == rows
    decreases |rows|
  {
    if rows != [] {
      assert rows[0].id != id;
      assert forall i | 0 <= i < |rows| - 1 :: rows[1..][i] == rows[i + 1];
      WithoutAbsent(rows[1..], id);
      assert rows == [rows[0]] + rows[1..];
    }
  }

  lemma WithoutPermuted(a: seq<Row>, b: seq<Row>, id: string)
    requires multiset(a) == multiset(b)
    ensures multiset(Without(a, id)) == multiset(Without(b, id))
  {
    WithoutCounts(a, id);
    WithoutCounts(b, id);
  }

  lemma RankedWithout(rows: seq<Row>, id: string)
    requires UniqueIDs(rows)
    ensures Ranked(Without(rows, id)) == Without(Ranked(rows), id)
  {
    var less := Without(rows, id);
    RankedSorts(rows);
    WithoutUnique(rows, id);
    RankedSorts(less);
    WithoutPermuted(rows, Ranked(rows), id);
    WithoutDescending(Ranked(rows), id);
    DescendingUnique(Ranked(less), Without(Ranked(rows), id));
  }

  // ----- one save -----

  /** The row that a save puts in the store. */
  function Versioned(store: seq<Row>, r: Row): Row {
    var i := Find(store, r.id);
    if i < |store| then r.(created := store[i].created) else r
  }

  lemma UpsertMembers(store: seq<Row>, r: Row)
    requires UniqueIDs(store)
    ensures multiset(Upsert(store, r)) == multiset(Without(store, r.id)) + multiset{Versioned(store, r)}
  {
    var i := Find(store, r.id);
    WithoutCounts(store, r.id);
    if i < |store| {
      OnlyOne(store, i);
      assert multiset(Without(store, r.id)) == multiset(store) - multiset{store[i]};
    } else {
      WithoutAbsent(store, r.id);
    }
  }

  lemma OnlyOne(rows: seq<Row>, i: nat)
    requires UniqueIDs(rows) && i < |rows|
    ensures forall r: Row | r.id == rows[i].id :: multiset(rows)[r] == if r == rows[i] then 1 else 0
  {
    assert rows == rows[..i] + [rows[i]] + rows[i+1..];
    forall r: Row | r.id == rows[i].id ensures multiset(rows)[r] == if r == rows[i] then 1 else 0 {
      assert r !in multiset(rows[..i]) && r !in multiset(rows[i+1..]);
    }
  }

  lemma SaveInserts(store: seq<Row>, r: Row, n: nat)
    requires Descending(store) && UniqueIDs(store)
    ensures Prune(Upsert(store, r), n) == First(Insert(Without(store, r.id), Versioned(store, r)), n)
  {
    var rest, v := Without(store, r.id), Versioned(store, r);
    UpsertMembers(store, r);
    WithoutMembers(store, r.id);
    WithoutUnique(store, r.id);
    WithoutDescending(store, r.id);
    assert UniqueIDs(rest + [v]);
    RankedCanonical(Upsert(store, r), rest + [v]);
    RankedAppends(rest, v);
    RankedFixed(rest);
  }

  // ----- the first rows of a ranking -----

  lemma {:induction false} FirstWithout(rows: seq<Row>, id: string, n: nat)
    requires !HasID(First(rows, n), id)
    ensures First(Without(rows, id), n) == First(rows, n)
    decreases |rows|
  {
    if rows != [] && n > 0 {
      var kept := First(rows, n);
      assert kept[0] == rows[0] && kept[1..] == First(rows[1..], n - 1);
      assert forall i | 0 <= i < |kept| - 1 :: kept[1..][i] == kept[i + 1];
      FirstWithout(rows[1..], id, n - 1);
      FirstCons(rows[0], Without(rows[1..], id), n);
      FirstCons(rows[0], rows[1..], n);
      assert rows == [rows[0]] + rows[1..];
    }
  }

  lemma {:induction false} InsertPasses(p: seq<Row>, q: seq<Row>, v: Row)
    requires forall i | 0 <= i < |p| :: Newer(p[i], v)
    ensures Insert(p + q, v) == p + Insert(q, v)
    decreases |p|
  {
    if p == [] {
      assert p + q == q;
    } else {
      NewerTotal(v, p[0]);
      InsertPasses(p[1..], q, v);
      assert (p + q)[1..] == p[1..] + q && p == [p[0]] + p[1..];
    }
  }

  lemma {:induction false} InsertStops(p: seq<Row>, q: seq<Row>, v: Row)
    requires q == [] || Newer(v, q[0])
    ensures Insert(p + q, v) == Insert(p, v) + q
    decreases |p|
  {
    if p == [] {
      assert p + q == q;
    } else if !Newer(v, p[0]) {
      InsertStops(p[1..], q, v);
      assert (p + q)[1..] == p[1..] + q;
    }
  }

  lemma InsertLength(rows: seq<Row>, v: Row)
    ensures |Insert(rows, v)| == |rows| + 1
  {
    InsertMembers(rows, v);
    assert |multiset(Insert(rows, v))| == |rows| + 1;
  }

  /** v takes the place of a kept row, in front of rest or behind its best row. */
  lemma ReplacedKept(a: seq<Row>, rest: seq<Row>, v: Row)
    requires Descending(a + rest) && rest != [] && v !in rest
    ensures First(Insert(a + rest, v), |a| + 1) == Insert(a, v) <==> Newer(v, rest[0])
    ensures Newer(v, rest[0]) <==> forall d | d in rest :: Newer(v, d)
  {
    NewerTotal(v, rest[0]);
    if Newer(v, rest[0]) {
      InsertLength(a, v);
      InsertStops(a, rest, v);
      AheadOfAll(a, rest, v);
    } else {
      BehindBest(a, rest, v);
    }
  }

  lemma AheadOfAll(a: seq<Row>, rest: seq<Row>, v: Row)
    requires Descending(a + rest) && rest != [] && Newer(v, rest[0])
    ensures forall d | d in rest :: Newer(v, d)
  {
    forall d | d in rest ensures Newer(v, d) {
      var i :| 0 <= i < |rest| && rest[i] == d;
      assert (a + rest)[|a|] == rest[0] && (a + rest)[|a| + i] == d;
      if i > 0 { NewerTransitive(v, rest[0], d); }
    }
  }

  lemma PrefixNewer(a: seq<Row>, rest: seq<Row>, v: Row)
    requires Descending(a + rest) && rest != [] && Newer(rest[0], v)
    ensures forall i | 0 <= i < |a| :: Newer(a[i], v)
  {
    forall i | 0 <= i < |a| ensures Newer(a[i], v) {
      assert (a + rest)[i] == a[i] && (a + rest)[|a|] == rest[0];
      NewerTransitive(a[i], rest[0], v);
    }
  }

  lemma BehindBest(a: seq<Row>, rest: seq<Row>, v: Row)
    requires Descending(a + rest) && rest != [] && Newer(rest[0], v)
    ensures First(Insert(a + rest, v), |a| + 1) != Insert(a, v)
  {
    PrefixNewer(a, rest, v);
    InsertPasses(a, rest, v);
    InsertLast(a, v);
    NewerTotal(rest[0], v);
    assert First(Insert(a + rest, v), |a| + 1)[|a|] == rest[0];
    assert Insert(a, v)[|a|] == v;
    NewerTotal(v, v);
  }

  /** A save is told apart from the same save without pruning. */
  lemma SaveInRanking(ranked: seq<Row>, v: Row, n: nat)
    requires Descending(ranked) && UniqueIDs(ranked)
    ensures
      First(Insert(Without(First(ranked, n), v.id), v), n) == First(Insert(Without(ranked, v.id), v), n)
      <==> (HasID(First(ranked, n), v.id) ==> forall d | d in ranked && d !in First(ranked, n) :: Newer(v, d))
  {
    var kept := First(ranked, n);
    if !HasID(kept, v.id) {
      WithoutAbsent(kept, v.id);
      FirstWithout(ranked, v.id, n);
      InsertFirst(Without(ranked, v.id), v, n);
    } else if kept != ranked {
      ResaveInRanking(ranked, v, n);
    }
  }

  lemma ResaveInRanking(ranked: seq<Row>, v: Row, n: nat)
    requires Descending(ranked) && UniqueIDs(ranked) && |ranked| > n && HasID(ranked[..n], v.id)
    ensures
      First(Insert(Without(ranked[..n], v.id), v), n) == First(Insert(Without(ranked, v.id), v), n)
      <==> forall d | d in ranked && d !in ranked[..n] :: Newer(v, d)
  {
    var a, rest := Without(ranked[..n], v.id), ranked[n..];
    RestIsOther(ranked, v.id, n);
    WithoutDescending(ranked, v.id);
    InsertLength(a, v);
    ReplacedKept(a, rest, v);
  }

  /** The kept row with the ID is the only one: the deleted rows are of other IDs. */
  lemma RestIsOther(ranked: seq<Row>, id: string, n: nat)
    requires UniqueIDs(ranked) && |ranked| > n && HasID(ranked[..n], id)
    ensures Without(ranked, id) == Without(ranked[..n], id) + ranked[n..]
    ensures |Without(ranked[..n], id)| == n - 1
    ensures forall d :: d in ranked && d !in ranked[..n] <==> d in ranked[n..]
    ensures forall d | d in ranked[n..] :: d.id != id
  {
    var kept, rest := ranked[..n], ranked[n..];
    assert ranked == kept + rest;
    var i :| 0 <= i < n && kept[i].id == id;
    forall j | 0 <= j < |rest| ensures rest[j].id != id && rest[j] !in kept {
      assert rest[j] == ranked[n + j] && kept[i] == ranked[i];
    }
    WithoutConcat(kept, rest, id);
    WithoutAbsent(rest, id);
    OneLess(kept, i);
  }

  lemma OneLess(rows: seq<Row>, i: nat)
    requires UniqueIDs(rows) && i < |rows|
    ensures |Without(rows, rows[i].id)| == |rows| - 1
  {
    WithoutCounts(rows, rows[i].id);
    OnlyOne(rows, i);
    assert multiset(Without(rows, rows[i].id)) == multiset(rows) - multiset{rows[i]};
    assert |multiset(Without(rows, rows[i].id))| == |rows| - 1;
  }

  // ----- many saves -----

  /** The rows after saving runs one after another, each save pruning. */
  function SaveAll(runs: seq<Row>, n: nat): seq<Row> {
    if runs == [] then []
    else
      var k := |runs| - 1;
      Prune(Upsert(SaveAll(runs[..k], n), runs[k]), n)
  }

  /** The last version of every run ever saved, kept or deleted. */
  function Latest(runs: seq<Row>, n: nat): seq<Row> {
    if runs == [] then []
    else
      var k := |runs| - 1;
      Without(Latest(runs[..k], n), runs[k].id) + [Versioned(SaveAll(runs[..k], n), runs[k])]
  }

  /** Saving r does not move a stored run behind a deleted one. */
  predicate Steady(store: seq<Row>, all: seq<Row>, r: Row) {
    HasID(store, r.id) ==> forall d | d in all && d !in store :: Newer(Versioned(store, r), d)
  }

  lemma {:induction false} LatestUnique(runs: seq<Row>, n: nat)
    ensures UniqueIDs(Latest(runs, n))
    decreases |runs|
  {
    if runs != [] {
      var k := |runs| - 1;
      LatestUnique(runs[..k], n);
      WithoutUnique(Latest(runs[..k], n), runs[k].id);
      WithoutMembers(Latest(runs[..k], n), runs[k].id);
    }
  }

  /** One save keeps the store at the n newest exactly when it is steady. */
  lemma SaveKeepsNewest(store: seq<Row>, all: seq<Row>, r: Row, n: nat)
    requires UniqueIDs(all) && store == Prune(all, n)
    ensures
      Prune(Upsert(store, r), n) == Prune(Without(all, r.id) + [Versioned(store, r)], n) <==> Steady(store, all, r)
  {
    var ranked, v := Ranked(all), Versioned(store, r);
    RankedSorts(all);
    PruneUnique(all, n);
    RankedUnique(all);
    SaveInserts(store, r, n);
    RankedAppends(Without(all, r.id), v);
    RankedWithout(all, r.id);
    SaveInRanking(ranked, v, n);
    forall d ensures d in ranked <==> d in all {
      assert d in ranked <==> d in multiset(ranked);
      assert d in all <==> d in multiset(all);
    }
  }

  lemma RankedUnique(rows: seq<Row>)
    requires UniqueIDs(rows)
    ensures UniqueIDs(Ranked(rows))
  {
    PruneUnique(rows, |rows|);
    RankedSorts(rows);
  }

  predicate HoldsNewest(runs: seq<Row>, n: nat) {
    SaveAll(runs, n) == Prune(Latest(runs, n), n)
  }

  predicate SteadyAt(runs: seq<Row>, n: nat, k: nat)
    requires k < |runs|
  {
    Steady(SaveAll(runs[..k], n), Latest(runs[..k], n), runs[k])
  }

  lemma NextSave(runs: seq<Row>, n: nat, k: nat)
    requires k < |runs| && HoldsNewest(runs[..k], n)
    ensures HoldsNewest(runs[..k+1], n) <==> SteadyAt(runs, n, k)
  {
    assert runs[..k+1][..k] == runs[..k];
    LatestUnique(runs[..k], n);
    SaveKeepsNewest(SaveAll(runs[..k], n), Latest(runs[..k], n), runs[k], n);
  }

  /** Pruning at every save forgets nothing that pruning once would keep: at all
      times the store holds the n newest of all runs ever saved, in their last
      versions, exactly when no save moves a stored run behind a deleted one. */
  lemma StoreHoldsNewest(runs: seq<Row>, n: nat)
    ensures (forall k | 0 <= k <= |runs| :: HoldsNewest(runs[..k], n)) <==> (forall k | 0 <= k < |runs| :: SteadyAt(runs, n, k))
  {
    if forall k | 0 <= k <= |runs| :: HoldsNewest(runs[..k], n) {
      forall k | 0 <= k < |runs| ensures SteadyAt(runs, n, k) {
        assert HoldsNewest(runs[..k], n) && HoldsNewest(runs[..k+1], n);
        NextSave(runs, n, k);
      }
    }
    if forall k | 0 <= k < |runs| :: SteadyAt(runs, n, k) {
      forall k | 0 <= k <= |runs| ensures HoldsNewest(runs[..k], n) {
        SteadySoFar(runs, n, k);
      }
    }
  }

  lemma {:induction false} SteadySoFar(runs: seq<Row>, n: nat, k: nat)
    requires k <= |runs| && forall j | 0 <= j < k :: SteadyAt(runs, n, j)
    ensures HoldsNewest(runs[..k], n)
    decreases k
  {
    if k == 0 {
      assert runs[..0] == [];
    } else {
      SteadySoFar(runs, n, k - 1);
      NextSave(runs, n, k - 1);
    }
  }

  /** Saving an ID again with the same or a later start is always steady. */
  lemma LaterStartSteady(store: seq<Row>, all: seq<Row>, r: Row, n: nat)
    requires UniqueIDs(all) && store == Prune(all, n)
    requires forall i | 0 <= i < |store| && store[i].id == r.id :: !Before(r.started, store[i].started)
    ensures Steady(store, all, r)
  {
    var i, v, ranked := Find(store, r.id), Versioned(store, r), Ranked(all);
    if i < |store| {
      RankedSorts(all);
      BeforeTotal(r.started, store[i].started);
      forall d | d in all && d !in store ensures Newer(v, d) {
        assert d in multiset(ranked);
        var j :| 0 <= j < |ranked| && ranked[j] == d;
        assert forall m | 0 <= m < |store| :: store[m] == ranked[m];
        assert Newer(store[i], d);
        if v != store[i] { NewerTransitive(v, store[i], d); }
      }
    } else {
      assert !HasID(store, r.id);
    }
  }

  /** Runs with different IDs are always kept so, and then the last versions are
      the runs themselves. */
  lemma {:induction false} DistinctRuns(runs: seq<Row>, n: nat)
    requires UniqueIDs(runs)
    ensures Latest(runs, n) == runs && SaveAll(runs, n) == Prune(runs, n)
    decreases |runs|
  {
    if runs != [] {
      var k := |runs| - 1;
      assert runs == runs[..k] + [runs[k]];
      FrontUnique(runs[..k], runs[k]);
      DistinctRuns(runs[..k], n);
      StoreGrows(runs[..k], runs[k], n);
      LatestGrows(runs[..k], runs[k], n);
    }
  }

  lemma FrontUnique(before: seq<Row>, r: Row)
    requires UniqueIDs(before + [r])
    ensures UniqueIDs(before) && !HasID(before, r.id)
  {
    var all := before + [r];
    assert all[|before|] == r;
    assert forall i | 0 <= i < |before| :: all[i] == before[i];
  }

  lemma StoreGrows(before: seq<Row>, r: Row, n: nat)
    requires UniqueIDs(before + [r]) && SaveAll(before, n) == Prune(before, n)
    ensures SaveAll(before + [r], n) == Prune(before + [r], n)
  {
    assert (before + [r])[..|before|] == before;
    Fresh(before, r, n);
    OneMore(before, r, n);
  }

  lemma LatestGrows(before: seq<Row>, r: Row, n: nat)
    requires UniqueIDs(before + [r])
    requires Latest(before, n) == before && SaveAll(before, n) == Prune(before, n)
    ensures Latest(before + [r], n) == before + [r]
  {
    assert (before + [r])[..|before|] == before;
    FrontUnique(before, r);
    WithoutAbsent(before, r.id);
    NotStored(before, r, n);
  }

  lemma NotStored(rows: seq<Row>, r: Row, n: nat)
    requires UniqueIDs(rows) && !HasID(rows, r.id)
    ensures Versioned(Prune(rows, n), r) == r
  {
    RankedSorts(rows);
    var store := Prune(rows, n);
    forall i | 0 <= i < |store| ensures store[i].id != r.id {
      assert store[i] == Ranked(rows)[i];
      assert store[i] in multiset(rows);
    }
  }
}
