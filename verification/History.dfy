/** The stored history: saving a run, and keeping only the newest ones. */
module History {
  import opened Text
  import opened Timestamps

  /** The columns that retention looks at. */
  datatype Row = Row(id: string, started: string, created: string)

  /** The order of retention: start, then creation, then ID, all descending. */
  predicate Newer(a: Row, b: Row) {
    || Before(b.started, a.started)
    || (a.started == b.started && (Before(b.created, a.created) || (a.created == b.created && Before(b.id, a.id))))
  }

  /** The row that started later ranks first; of those that started together the one
      created later, and of those the one with the greater ID. */
  lemma NewerSpelled(a: Row, b: Row)
    ensures Before(b.started, a.started) ==> Newer(a, b) && !Newer(b, a)
    ensures a.started == b.started && Before(b.created, a.created) ==> Newer(a, b) && !Newer(b, a)
    ensures a.started == b.started && a.created == b.created && Before(b.id, a.id) ==> Newer(a, b) && !Newer(b, a)
  {
    NewerTotal(a, b);
  }

  lemma NewerTotal(a: Row, b: Row)
    ensures !(Newer(a, b) && Newer(b, a)) && (Newer(a, b) || Newer(b, a) || a == b) && !Newer(a, a)
  {
    BeforeTotal(a.started, b.started);
    BeforeTotal(a.created, b.created);
    BeforeTotal(a.id, b.id);
    BeforeTotal(a.started, a.started);
    BeforeTotal(a.created, a.created);
    BeforeTotal(a.id, a.id);
  }

  lemma NewerTransitive(a: Row, b: Row, c: Row)
    requires Newer(a, b) && Newer(b, c)
    ensures Newer(a, c)
  {
    if Before(b.started, a.started) && Before(c.started, b.started) {
      BeforeTransitive(c.started, b.started, a.started);
    }
    if Before(b.created, a.created) && Before(c.created, b.created) {
      BeforeTransitive(c.created, b.created, a.created);
    }
    if Before(b.id, a.id) && Before(c.id, b.id) { BeforeTransitive(c.id, b.id, a.id); }
  }

  predicate UniqueIDs(rows: seq<Row>) {
    forall i, j | 0 <= i < j < |rows| :: rows[i].id != rows[j].id
  }

  predicate Descending(rows: seq<Row>) {
    forall i, j | 0 <= i < j < |rows| :: Newer(rows[i], rows[j])
  }

  function Insert(rows: seq<Row>, r: Row): seq<Row> {
    if rows == [] || Newer(r, rows[0]) then [r] + rows else [rows[0]] + Insert(rows[1..], r)
  }

  /** The rows in the order of retention. */
  function Ranked(rows: seq<Row>): seq<Row> {
    if rows == [] then [] else Insert(Ranked(rows[..|rows|-1]), rows[|rows|-1])
  }

  function First(rows: seq<Row>, n: nat): (r: seq<Row>)
    ensures r <= rows && |r| <= n
  {
    if |rows| > n then rows[..n] else rows
  }

  /** pruneHistoryTx: the rows past the first n in order are deleted. */
  function Prune(rows: seq<Row>, n: nat): seq<Row> {
    First(Ranked(rows), n)
  }

  lemma {:induction false} InsertMembers(rows: seq<Row>, r: Row)
    ensures multiset(Insert(rows, r)) == multiset(rows) + multiset{r}
    decreases |rows|
  {
    if rows != [] && !Newer(r, rows[0]) {
      InsertMembers(rows[1..], r);
      assert rows == [rows[0]] + rows[1..];
    }
  }

  lemma {:induction false} InsertDescending(rows: seq<Row>, r: Row)
    requires Descending(rows) && r !in rows
    ensures Descending(Insert(rows, r))
    decreases |rows|
  {
    if rows != [] {
      NewerTotal(r, rows[0]);
      if Newer(r, rows[0]) {
        forall i | 0 < i < |rows| ensures Newer(r, rows[i]) { NewerTransitive(r, rows[0], rows[i]); }
      } else {
        InsertDescending(rows[1..], r);
        InsertStaysBehind(rows[0], rows[1..], r);
      }
    }
  }

  lemma InsertStaysBehind(x: Row, rows: seq<Row>, r: Row)
    requires Newer(x, r) && forall i | 0 <= i < |rows| :: Newer(x, rows[i])
    ensures forall i | 0 <= i < |Insert(rows, r)| :: Newer(x, Insert(rows, r)[i])
  {
    var rest := Insert(rows, r);
    InsertMembers(rows, r);
    forall i | 0 <= i < |rest| ensures Newer(x, rest[i]) {
      assert rest[i] in multiset(rest);
      assert rest[i] == r || rest[i] in rows;
    }
  }

  lemma {:induction false} RankedSorts(rows: seq<Row>)
    requires UniqueIDs(rows)
    ensures multiset(Ranked(rows)) == multiset(rows) && |Ranked(rows)| == |rows|
    ensures Descending(Ranked(rows))
    decreases |rows|
  {
    if rows != [] {
      var n := |rows| - 1;
      assert rows == rows[..n] + [rows[n]];
      RankedSorts(rows[..n]);
      var front := Ranked(rows[..n]);
      assert rows[n] !in multiset(rows[..n]);
      assert rows[n] in front <==> rows[n] in multiset(front);
      InsertMembers(front, rows[n]);
      InsertDescending(front, rows[n]);
    }
    assert |multiset(Ranked(rows))| == |multiset(rows)|;
  }

  /** The rows that outrank one. */
  function Ahead(rows: seq<Row>, r: Row): set<Row> {
    set s | s in rows && Newer(s, r)
  }

  lemma {:induction false} DistinctCount(rows: seq<Row>, k: nat)
    requires Descending(rows) && k <= |rows|
    ensures |set i | 0 <= i < k :: rows[i]| == k
  {
    if k > 0 {
      DistinctCount(rows, k - 1);
      var before := set i | 0 <= i < k - 1 :: rows[i];
      assert (set i | 0 <= i < k :: rows[i]) == before + {rows[k-1]};
      assert rows[k-1] !in before by {
        NewerTotal(rows[k-1], rows[k-1]);
      }
    }
  }

  lemma AheadIsPrefix(rows: seq<Row>, k: nat)
    requires Descending(rows) && k < |rows|
    ensures Ahead(rows, rows[k]) == set i | 0 <= i < k :: rows[i]
  {
    forall s ensures s in Ahead(rows, rows[k]) <==> s in set i | 0 <= i < k :: rows[i] {
      if s in Ahead(rows, rows[k]) {
        var i :| 0 <= i < |rows| && rows[i] == s;
        NewerTotal(s, rows[k]);
      }
    }
  }

  /** Retention keeps a row exactly when fewer than n rows outrank it. */
  lemma KeptExactly(rows: seq<Row>, n: nat, r: Row)
    requires UniqueIDs(rows)
    ensures |Prune(rows, n)| == if |rows| < n then |rows| else n
    ensures r in Prune(rows, n) <==> r in rows && |Ahead(rows, r)| < n
  {
    var ranked := Ranked(rows);
    RankedSorts(rows);
    forall s ensures s in ranked <==> s in rows {
      assert s in ranked <==> s in multiset(ranked);
      assert s in rows <==> s in multiset(rows);
    }
    if r in rows {
      var k :| 0 <= k < |ranked| && ranked[k] == r;
      assert Ahead(rows, r) == Ahead(ranked, r);
      AheadIsPrefix(ranked, k);
      DistinctCount(ranked, k);
      KeptAt(ranked, n, k);
    }
  }

  lemma KeptAt(ranked: seq<Row>, n: nat, k: nat)
    requires Descending(ranked) && k < |ranked|
    ensures ranked[k] in First(ranked, n) <==> k < n
  {
    var kept := First(ranked, n);
    if k < |kept| { assert kept[k] in kept; }
    if ranked[k] in kept {
      var i :| 0 <= i < |kept| && kept[i] == ranked[k];
      NewerTotal(ranked[k], ranked[k]);
      assert i == k;
    }
  }

  /** In terms of time: no deleted run started after a kept one. */
  lemma KeepsNewest(rows: seq<Row>, n: nat, kept: Row, deleted: Row, a: Instant, b: Instant)
    requires UniqueIDs(rows)
    requires kept in Prune(rows, n) && deleted in rows && deleted !in Prune(rows, n)
    requires kept.started == FormatTime(a) && deleted.started == FormatTime(b)
    requires a != ZERO && b != ZERO && InRange(a) && InRange(b)
    ensures !Earlier(a, b)
  {
    RankedSorts(rows);
    var ranked := Ranked(rows);
    assert deleted in multiset(rows);
    var i :| 0 <= i < |ranked| && ranked[i] == kept && i < n;
    var j :| 0 <= j < |ranked| && ranked[j] == deleted;
    assert j >= n by { KeptAt(ranked, n, j); }
    BeforeTotal(kept.started, deleted.started);
    TextOrderIsTimeOrder(a, b);
    assert Newer(kept, deleted);
  }

  // ----- the store -----

  function Find(rows: seq<Row>, id: string): (i: nat)
    ensures i <= |rows|
    ensures i < |rows| ==> rows[i].id == id
    ensures forall j | 0 <= j < i :: rows[j].id != id
  {
    if rows == [] || rows[0].id == id then 0 else 1 + Find(rows[1..], id)
  }

  /** Saving an ID again replaces its start and keeps its creation time. */
  function Upsert(rows: seq<Row>, r: Row): (t: seq<Row>)
    ensures UniqueIDs(rows) ==> UniqueIDs(t)
  {
    var i := Find(rows, r.id);
    if i < |rows| then rows[i := r.(created := rows[i].created)] else rows + [r]
  }

  /** A known ID gets its new start and keeps its creation time; a new one is added;
      no other row is touched. */
  lemma UpsertSpelled(rows: seq<Row>, id: string, started: string, created: string)
    requires UniqueIDs(rows)
    ensures
      var t := Upsert(rows, Row(id, started, created));
      && (forall r: Row | r.id != id :: r in t <==> r in rows)
      && (forall r | r in rows && r.id == id :: Row(id, started, r.created) in t && |t| == |rows|)
      && ((forall r | r in rows :: r.id != id) ==> t == rows + [Row(id, started, created)])
      && (forall r | r in t && r.id == id :: r.started == started)
  {
    var r := Row(id, started, created);
    var i := Find(rows, id);
    var t := Upsert(rows, r);
    if i < |rows| {
      assert t[i] == Row(id, started, rows[i].created);
      assert forall j | 0 <= j < |rows| && j != i :: t[j] == rows[j];
      assert rows[i] in rows;
    }
    forall x: Row | x.id != id ensures x in t <==> x in rows {
      if x in rows { var j :| 0 <= j < |rows| && rows[j] == x; assert t[j] == x; }
      if x in t { var j :| 0 <= j < |t| && t[j] == x; if j < |rows| { assert rows[j] == x; } }
    }
  }

  const DEFAULT_MAX_ENTRIES: int := 200
  const MAX_ENTRIES: int := 10_000

  class Store {
    var rows: seq<Row>

    ghost predicate Valid() reads this { UniqueIDs(rows) }

    constructor ()
      ensures Valid() && rows == []
    {
      rows := [];
    }

    /** SaveDiagnosis. The run itself may be refused, which leaves the rows alone. */
    method SaveDiagnosis(id: string, started: Instant, now: Instant, acceptable: bool, maxEntries: int)
      returns (saved: bool)
      requires Valid()
      modifies this
      ensures Valid()
      ensures saved <==> acceptable && 0 <= maxEntries <= 10_000
      ensures rows == if !saved then old(rows)
                      else Prune(Upsert(old(rows), Row(id, FormatTime(started), FormatTime(now))),
                                 if maxEntries == 0 then 200 else maxEntries)
    {
      var limit := maxEntries;
      if limit == 0 { limit := DEFAULT_MAX_ENTRIES; }
      if limit < 1 || limit > MAX_ENTRIES || !acceptable { return false; }
      rows := Upsert(rows, Row(id, FormatTime(started), FormatTime(now)));
      PruneUnique(rows, limit);
      rows := Prune(rows, limit);
      return true;
    }

    method PruneHistory(maxEntries: int) returns (ok: bool)
      requires Valid()
      modifies this
      ensures Valid()
      ensures ok <==> 1 <= maxEntries <= 10_000
      ensures rows == if ok then Prune(old(rows), maxEntries) else old(rows)
    {
      if maxEntries < 1 || maxEntries > MAX_ENTRIES { return false; }
      PruneUnique(rows, maxEntries);
      rows := Prune(rows, maxEntries);
      return true;
    }
  }

  lemma PruneUnique(rows: seq<Row>, n: nat)
    requires UniqueIDs(rows)
    ensures UniqueIDs(Prune(rows, n))
  {
    RankedSorts(rows);
    var ranked := Ranked(rows);
    forall i, j | 0 <= i < j < |ranked| ensures ranked[i].id != ranked[j].id {
      assert ranked[i] in multiset(rows) && ranked[j] in multiset(rows);
      NewerTotal(ranked[i], ranked[j]);
      NewerTotal(ranked[i], ranked[i]);
    }
  }
}
