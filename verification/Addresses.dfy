/** Canonical resolver output and the bounded address selection made from it. */
module Addresses {
  import opened Text

  /** A byte of a byte string. */
  type Byte = c: char | c < '\U{100}'

  /** net.IP; the empty sequence is nil. An address's text form is injective on
      canonical addresses, so the address itself serves as its key. */
  type IP = seq<Byte>

  const MAPPED: IP := "\0\0\0\0\0\0\0\0\0\0\U{ff}\U{ff}"

  datatype Family = AnyFamily | IPv4 | IPv6

  predicate Mapped(ip: IP) {
    |ip| == 16 && ip[..12] == MAPPED
  }

  function To4(ip: IP): (v4: IP)
    ensures |v4| in {0, 4}
  {
    if |ip| == 4 then ip else if Mapped(ip) then ip[12..] else []
  }

  function To16(ip: IP): (v6: IP)
    ensures |v6| in {0, 16}
  {
    if |ip| == 4 then MAPPED + ip else if |ip| == 16 then ip else []
  }

  function Canonical(ip: IP): IP {
    if To4(ip) != [] then To4(ip) else To16(ip)
  }

  /** Canonical forms are unique: two addresses with the same 16-byte form have
      the same canonical form, and canonical addresses are left alone. */
  lemma CanonicalUnique(a: IP, b: IP)
    ensures Canonical(Canonical(a)) == Canonical(a)
    ensures To16(a) != [] ==> (To16(a) == To16(b) <==> Canonical(a) == Canonical(b))
  {
    if Mapped(a) { assert a == MAPPED + a[12..]; }
    if Mapped(b) { assert b == MAPPED + b[12..]; }
    if |a| == 4 { assert To16(a)[12..] == a && Mapped(To16(a)); }
    if |b| == 4 { assert To16(b)[12..] == b && Mapped(To16(b)); }
  }

  predicate InFamily(ip: IP, family: Family) {
    var c := Canonical(ip);
    c != [] && (family == IPv4 ==> To4(c) != []) && (family == IPv6 ==> To4(c) == [])
  }

  /** An IPv4 address written in 16 bytes: ten zeros and two bytes of ones first. */
  predicate WrittenLong(ip: IP) {
    |ip| == 16 && (forall i | 0 <= i < 10 :: ip[i] == '\0') && ip[10] == '\U{ff}' && ip[11] == '\U{ff}'
  }

  /** The canonical form: four bytes for IPv4, however written, sixteen for IPv6, and
      none for anything else. */
  lemma CanonicalSpelled(ip: IP)
    ensures |ip| == 4 ==> Canonical(ip) == ip
    ensures WrittenLong(ip) ==> Canonical(ip) == ip[12..]
    ensures |ip| == 16 && !WrittenLong(ip) ==> Canonical(ip) == ip
    ensures |ip| != 4 && |ip| != 16 ==> Canonical(ip) == []
  {
    if |ip| == 16 { assert WrittenLong(ip) <==> ip[..12] == MAPPED; }
  }

  /** And the families are told apart by its length. */
  lemma FamiliesSpelled(ip: IP)
    ensures |Canonical(ip)| in {0, 4, 16}
    ensures InFamily(ip, IPv4) <==> |Canonical(ip)| == 4
    ensures InFamily(ip, IPv6) <==> |Canonical(ip)| == 16
    ensures InFamily(ip, AnyFamily) <==> |Canonical(ip)| != 0
    ensures MatchesRequestedFamily(Canonical(ip), IPv4) <==> |Canonical(ip)| == 4
    ensures MatchesRequestedFamily(Canonical(ip), IPv6) <==> |Canonical(ip)| == 16
    ensures MatchesRequestedFamily(Canonical(ip), AnyFamily) <==> |Canonical(ip)| != 0
  {
    CanonicalUnique(ip, ip);
  }

  // ----- ordering -----

  method BytesCompare(left: IP, right: IP) returns (order: int)
    ensures order < 0 <==> Before(left, right)
    ensures order == 0 <==> left == right
  {
    for i := 0 to if |left| < |right| then |left| else |right|
      invariant left[..i] == right[..i]
      invariant Before(left, right) <==> Before(left[i..], right[i..])
    {
      assert left[i..][1..] == left[i+1..] && right[i..][1..] == right[i+1..];
      if left[i] < right[i] { return -1; }
      if left[i] > right[i] { return 1; }
    }
    order := |left| - |right|;
    if order == 0 { assert left == left[..|left|] == right[..|right|] == right; }
  }

  predicate Increasing(ips: seq<IP>) {
    forall i, j | 0 <= i < j < |ips| :: Before(ips[i], ips[j])
  }

  // ----- normalize -----

  /** How many inputs are addresses of the family. */
  function CountIn(addresses: seq<IP>, family: Family): nat {
    if addresses == [] then 0
    else CountIn(addresses[..|addresses|-1], family) + (if InFamily(addresses[|addresses|-1], family) then 1 else 0)
  }

  /** The positions of the family's addresses. */
  function Positions(addresses: seq<IP>, family: Family): set<nat> {
    set i | 0 <= i < |addresses| && InFamily(addresses[i], family)
  }

  lemma OnePosition(front: seq<IP>, x: IP, family: Family)
    ensures |Positions(front + [x], family)| == |Positions(front, family)| + (if InFamily(x, family) then 1 else 0)
  {
    var all, before, longer := front + [x], Positions(front, family), Positions(front + [x], family);
    assert all[|front|] == x;
    forall i ensures i in longer <==> i in before || (i == |front| && InFamily(x, family)) {
      if 0 <= i < |front| { assert all[i] == front[i]; }
    }
    assert longer == if InFamily(x, family) then before + {|front|} else before;
  }

  lemma {:induction false} CountSpelled(addresses: seq<IP>, family: Family)
    ensures CountIn(addresses, family) == |Positions(addresses, family)|
    decreases |addresses|
  {
    if addresses == [] {
      assert Positions(addresses, family) == {};
    } else {
      var n := |addresses| - 1;
      CountSpelled(addresses[..n], family);
      OnePosition(addresses[..n], addresses[n], family);
      assert addresses == addresses[..n] + [addresses[n]];
    }
  }

  /** ips holds exactly the canonical forms of the family's addresses. */
  ghost predicate Holds(addresses: seq<IP>, family: Family, ips: seq<IP>) {
    forall x :: x in ips <==> exists a :: a in addresses && InFamily(a, family) && Canonical(a) == x
  }

  /** Sorted insertion, the step of the library's stable sort. */
  function Insert(ips: seq<IP>, x: IP): seq<IP> {
    if ips == [] || !Before(x, ips[|ips|-1]) then ips + [x]
    else Insert(ips[..|ips|-1], x) + [ips[|ips|-1]]
  }

  function Sort(ips: seq<IP>): seq<IP> {
    if ips == [] then [] else Insert(Sort(ips[..|ips|-1]), ips[|ips|-1])
  }

  lemma {:induction false} InsertIncreasing(ips: seq<IP>, x: IP)
    requires Increasing(ips) && x !in ips
    ensures Increasing(Insert(ips, x)) && |Insert(ips, x)| == |ips| + 1
    ensures forall y :: y in Insert(ips, x) <==> y in ips || y == x
    decreases |ips|
  {
    if ips != [] {
      var n := |ips| - 1;
      assert ips == ips[..n] + [ips[n]];
      BeforeTotal(x, ips[n]);
      if Before(x, ips[n]) {
        InsertIncreasing(ips[..n], x);
        var r := Insert(ips[..n], x);
        forall i | 0 <= i < |r| ensures Before(r[i], ips[n]) {
          assert r[i] in r;
        }
      } else {
        forall i | 0 <= i < |ips| ensures Before(ips[i], x) {
          if i < n { BeforeTransitive(ips[i], ips[n], x); }
        }
      }
    }
  }

  predicate NoDuplicates(ips: seq<IP>) {
    forall i, j | 0 <= i < j < |ips| :: ips[i] != ips[j]
  }

  lemma {:induction false} SortIncreasing(ips: seq<IP>)
    requires NoDuplicates(ips)
    ensures Increasing(Sort(ips)) && |Sort(ips)| == |ips|
    ensures forall y :: y in Sort(ips) <==> y in ips
    decreases |ips|
  {
    if ips != [] {
      var n := |ips| - 1;
      assert ips == ips[..n] + [ips[n]];
      SortIncreasing(ips[..n]);
      InsertIncreasing(Sort(ips[..n]), ips[n]);
    }
  }

  /** A sorted list of exactly the family's canonical addresses, and how many
      inputs repeated one of them. */
  ghost predicate IsNormalized(addresses: seq<IP>, family: Family, result: seq<IP>, duplicates: nat) {
    Increasing(result) && Holds(addresses, family, result) && |result| + duplicates == CountIn(addresses, family)
  }

  /** normalize. */
  method Normalize(addresses: seq<IP>, family: Family) returns (result: seq<IP>, duplicates: nat)
    ensures IsNormalized(addresses, family, result, duplicates)
    ensures |result| + duplicates == |Positions(addresses, family)|
    ensures forall x | x in result :: match family case IPv4 => |x| == 4 case IPv6 => |x| == 16 case AnyFamily => |x| in {4, 16}
  {
    result, duplicates := Deduplicate(addresses, family);
    SortIncreasing(result);
    result := Sort(result);
    CountSpelled(addresses, family);
    MembersOfFamily(addresses, family, result);
  }

  lemma MembersOfFamily(addresses: seq<IP>, family: Family, ips: seq<IP>)
    requires Holds(addresses, family, ips)
    ensures forall x | x in ips :: match family case IPv4 => |x| == 4 case IPv6 => |x| == 16 case AnyFamily => |x| in {4, 16}
  {
    forall x | x in ips
      ensures match family case IPv4 => |x| == 4 case IPv6 => |x| == 16 case AnyFamily => |x| in {4, 16}
    {
      var a :| a in addresses && InFamily(a, family) && Canonical(a) == x;
      FamiliesSpelled(a);
    }
  }

  /** The loop of normalize, before its sort. */
  method Deduplicate(addresses: seq<IP>, family: Family) returns (result: seq<IP>, duplicates: nat)
    ensures NoDuplicates(result) && Holds(addresses, family, result)
    ensures |result| + duplicates == CountIn(addresses, family)
  {
    var seen: set<IP> := {};
    result, duplicates := [], 0;
    for n := 0 to |addresses|
      invariant NoDuplicates(result) && forall x :: x in seen <==> x in result
      invariant Holds(addresses[..n], family, result)
      invariant |result| + duplicates == CountIn(addresses[..n], family)
    {
      var before := addresses[..n];
      assert addresses[..n+1] == before + [addresses[n]];
      CountAppended(before, addresses[n], family);
      var address := Canonical(addresses[n]);
      assert To4(address) == [] || To4(address) == address;
      if address == [] || (family == IPv4 && To4(address) == []) || (family == IPv6 && To4(address) != []) {
        assert !InFamily(addresses[n], family);
        HoldsSkips(before, addresses[n], family, result);
        continue;
      }
      assert InFamily(addresses[n], family);
      HoldsAdds(before, addresses[n], family, result);
      if address in seen {
        duplicates := duplicates + 1;
        continue;
      }
      seen := seen + {address};
      result := result + [address];
    }
    assert addresses[..|addresses|] == addresses;
  }

  lemma HoldsSkips(before: seq<IP>, a: IP, family: Family, ips: seq<IP>)
    requires Holds(before, family, ips) && !InFamily(a, family)
    ensures Holds(before + [a], family, ips)
  {
    forall x ensures x in ips <==> exists b :: b in before + [a] && InFamily(b, family) && Canonical(b) == x {
      if b :| b in before && InFamily(b, family) && Canonical(b) == x { assert b in before + [a]; }
    }
  }

  lemma HoldsAdds(before: seq<IP>, a: IP, family: Family, ips: seq<IP>)
    requires Holds(before, family, ips) && InFamily(a, family)
    ensures Holds(before + [a], family, if Canonical(a) in ips then ips else ips + [Canonical(a)])
  {
    var grown := if Canonical(a) in ips then ips else ips + [Canonical(a)];
    forall x ensures x in grown <==> exists b :: b in before + [a] && InFamily(b, family) && Canonical(b) == x {
      assert a in before + [a];
      if b :| b in before && InFamily(b, family) && Canonical(b) == x { assert b in before + [a]; }
    }
  }

  // ----- resolver order does not matter -----

  predicate SameMembers(a: seq<IP>, b: seq<IP>) {
    (forall i | 0 <= i < |a| :: a[i] in b) && (forall i | 0 <= i < |b| :: b[i] in a)
  }

  lemma {:induction false} IncreasingUnique(a: seq<IP>, b: seq<IP>)
    requires Increasing(a) && Increasing(b) && SameMembers(a, b)
    ensures a == b
    decreases |a|
  {
    if b != [] { assert b[0] in a; }
    if a != [] {
      assert a[0] in b;
      SameLast(a, b);
      var m, n := |a| - 1, |b| - 1;
      FrontMembers(a, b);
      FrontMembers(b, a);
      IncreasingUnique(a[..m], b[..n]);
      assert a == a[..m] + [a[m]] && b == b[..n] + [b[n]];
    }
  }

  lemma SameLast(a: seq<IP>, b: seq<IP>)
    requires Increasing(a) && Increasing(b) && SameMembers(a, b)
    requires a != [] && b != []
    ensures a[|a|-1] == b[|b|-1]
  {
    var x, y := a[|a|-1], b[|b|-1];
    assert x == y || Before(x, y);
    assert x == y || Before(y, x);
    BeforeTotal(x, y);
  }

  lemma FrontMembers(a: seq<IP>, b: seq<IP>)
    requires Increasing(a) && SameMembers(a, b)
    requires a != [] && b != [] && a[|a|-1] == b[|b|-1]
    ensures forall i | 0 <= i < |a| - 1 :: a[i] in b[..|b|-1]
  {
    forall i | 0 <= i < |a| - 1 ensures a[i] in b[..|b|-1] {
      assert a[i] in b && Before(a[i], a[|a|-1]);
      BeforeTotal(a[i], a[|a|-1]);
      assert b == b[..|b|-1] + [b[|b|-1]];
    }
  }

  lemma {:induction false} CountPermuted(p: seq<IP>, q: seq<IP>, family: Family)
    requires multiset(p) == multiset(q)
    ensures CountIn(p, family) == CountIn(q, family)
    decreases |p|
  {
    if p == [] {
      assert |q| == |multiset(q)| == 0;
    } else {
      var n, x := |p| - 1, p[|p|-1];
      assert x in multiset(q);
      var k :| 0 <= k < |q| && q[k] == x;
      CountRemoved(q, k, family);
      RemovedMultiset(p, n);
      RemovedMultiset(q, k);
      assert p[..n] + p[n+1..] == p[..n];
      CountPermuted(p[..n], q[..k] + q[k+1..], family);
    }
  }

  lemma RemovedMultiset(q: seq<IP>, k: nat)
    requires k < |q|
    ensures multiset(q[..k] + q[k+1..]) == multiset(q) - multiset{q[k]}
  {
    assert q == q[..k] + [q[k]] + q[k+1..];
  }

  lemma {:induction false} CountRemoved(q: seq<IP>, k: nat, family: Family)
    requires k < |q|
    ensures CountIn(q, family) == CountIn(q[..k] + q[k+1..], family) + (if InFamily(q[k], family) then 1 else 0)
    decreases |q|
  {
    var n := |q| - 1;
    if k == n {
      assert q[..k] + q[k+1..] == q[..n];
    } else {
      CountRemoved(q[..n], k, family);
      assert q[..n][k] == q[k];
      CountAppended(q[..n][..k] + q[..n][k+1..], q[n], family);
      CountAppended(q[..n], q[n], family);
      assert q == q[..n] + [q[n]];
      RemovedShorter(q, k);
    }
  }

  lemma RemovedShorter(q: seq<IP>, k: nat)
    requires k < |q| - 1
    ensures var n := |q| - 1; q[..k] + q[k+1..] == (q[..n][..k] + q[..n][k+1..]) + [q[n]]
  {
  }

  lemma CountAppended(q: seq<IP>, x: IP, family: Family)
    ensures CountIn(q + [x], family) == CountIn(q, family) + (if InFamily(x, family) then 1 else 0)
  {
    assert (q + [x])[..|q|] == q;
  }

  /** Normalisation is a function of the multiset of answers. */
  lemma ResolverOrderIrrelevant(p: seq<IP>, q: seq<IP>, family: Family, a: seq<IP>, b: seq<IP>, m: nat, n: nat)
    requires multiset(p) == multiset(q)
    requires IsNormalized(p, family, a, m) && IsNormalized(q, family, b, n)
    ensures a == b && m == n
  {
    forall x ensures x in p <==> x in q {
      assert x in p <==> x in multiset(p);
      assert x in q <==> x in multiset(q);
    }
    forall i | 0 <= i < |a| ensures a[i] in b { assert a[i] in a; }
    forall i | 0 <= i < |b| ensures b[i] in a { assert b[i] in b; }
    IncreasingUnique(a, b);
    CountPermuted(p, q, family);
  }

  // ----- SelectAddresses -----

  datatype Options = Options(connectIP: IP, version: Family, limit: int, clientEffective: bool)

  datatype Selection = Selection(addresses: seq<IP>, total: nat, skipped: nat)

  const DEFAULT_ADDRESS_LIMIT: nat := 4

  predicate MatchesRequestedFamily(ip: IP, version: Family) {
    match version
    case IPv4 => To4(ip) != []
    case IPv6 => To4(ip) == [] && To16(ip) != []
    case AnyFamily => To16(ip) != []
  }

  function EffectiveLimit(o: Options): (limit: nat)
    ensures limit >= 1 && (o.clientEffective ==> limit <= 2) && (o.limit > 0 ==> limit <= o.limit)
    ensures !o.clientEffective ==> limit == if o.limit > 0 then o.limit else 4
  {
    var limit := if o.limit <= 0 then DEFAULT_ADDRESS_LIMIT else o.limit;
    if o.clientEffective && limit > 2 then 2 else limit
  }

  function AppendCanonicalUnique(destination: seq<IP>, values: seq<IP>): (r: seq<IP>)
    ensures destination <= r
    ensures NoDuplicates(destination) ==> NoDuplicates(r)
    ensures forall x :: x in r <==> x in destination || (x != [] && exists v :: v in values && Canonical(v) == x)
  {
    if values == [] then destination
    else
      var n := |values| - 1;
      var r := AppendCanonicalUnique(destination, values[..n]);
      var c := Canonical(values[n]);
      assert values == values[..n] + [values[n]];
      assert forall v :: v in values <==> v in values[..n] || v == values[n];
      if c == [] || c in r then r else r + [c]
  }

  method AppendCanonicalUniqueLoop(destination: seq<IP>, values: seq<IP>) returns (r: seq<IP>)
    ensures r == AppendCanonicalUnique(destination, values)
  {
    var seen: set<IP> := set x | x in destination;
    r := destination;
    for n := 0 to |values|
      invariant r == AppendCanonicalUnique(destination, values[..n])
      invariant forall x :: x in seen <==> x in r
    {
      assert values[..n+1][..n] == values[..n];
      var value := Canonical(values[n]);
      if value == [] || value in seen { continue; }
      seen := seen + {value};
      r := r + [value];
    }
    assert values[..|values|] == values;
  }

  /** added holds the new canonical addresses of values, each where it first occurs. */
  predicate AddsInOrder(destination: seq<IP>, values: seq<IP>, added: seq<IP>, at: seq<nat>) {
    && |at| == |added|
    && (forall i | 0 <= i < |added| :: at[i] < |values| && added[i] == Canonical(values[at[i]]))
    && (forall i, j | 0 <= i < |added| && 0 <= j < at[i] :: Canonical(values[j]) != added[i])
    && (forall i, j | 0 <= i < j < |at| :: at[i] < at[j])
  }

  lemma AddsLonger(destination: seq<IP>, values: seq<IP>, v: IP, added: seq<IP>, at: seq<nat>)
    requires AddsInOrder(destination, values, added, at)
    ensures AddsInOrder(destination, values + [v], added, at)
  {
    assert forall j | 0 <= j < |values| :: (values + [v])[j] == values[j];
  }

  lemma AddsLast(destination: seq<IP>, values: seq<IP>, v: IP, added: seq<IP>, at: seq<nat>)
    requires AddsInOrder(destination, values, added, at)
    requires forall j | 0 <= j < |values| :: Canonical(values[j]) != Canonical(v)
    ensures AddsInOrder(destination, values + [v], added + [Canonical(v)], at + [|values|])
  {
    assert (values + [v])[|values|] == v;
    assert forall j | 0 <= j < |values| :: (values + [v])[j] == values[j];
  }

  lemma NotYetAdded(destination: seq<IP>, values: seq<IP>, c: IP)
    requires c != [] && c !in AppendCanonicalUnique(destination, values)
    ensures forall j | 0 <= j < |values| :: Canonical(values[j]) != c
  {
    assert forall j | 0 <= j < |values| :: values[j] in values;
  }

  lemma {:induction false} AppendInOrder(destination: seq<IP>, values: seq<IP>) returns (added: seq<IP>, at: seq<nat>)
    ensures AppendCanonicalUnique(destination, values) == destination + added
    ensures AddsInOrder(destination, values, added, at)
    decreases |values|
  {
    if values == [] {
      added, at := [], [];
    } else {
      var n := |values| - 1;
      added, at := AppendInOrder(destination, values[..n]);
      var r, c := AppendCanonicalUnique(destination, values[..n]), Canonical(values[n]);
      assert values == values[..n] + [values[n]];
      if c == [] || c in r {
        AddsLonger(destination, values[..n], values[n], added, at);
      } else {
        NotYetAdded(destination, values[..n], c);
        AddsLast(destination, values[..n], values[n], added, at);
        added, at := added + [c], at + [n];
      }
    }
  }

  function Candidates(v4: seq<IP>, v6: seq<IP>, version: Family): seq<IP> {
    match version
    case IPv4 => AppendCanonicalUnique([], v4)
    case IPv6 => AppendCanonicalUnique([], v6)
    case AnyFamily => AppendCanonicalUnique(AppendCanonicalUnique([], v4), v6)
  }

  function Select(v4: seq<IP>, v6: seq<IP>, o: Options): Selection {
    var connect := Canonical(o.connectIP);
    if connect != [] then
      if MatchesRequestedFamily(connect, o.version) then Selection([connect], 1, 0) else Selection([], 0, 0)
    else
      var candidates := Candidates(v4, v6, o.version);
      var limit := EffectiveLimit(o);
      if |candidates| > limit then Selection(candidates[..limit], |candidates|, |candidates| - limit)
      else Selection(candidates, |candidates|, 0)
  }

  method SelectAddresses(v4: seq<IP>, v6: seq<IP>, o: Options) returns (s: Selection)
    ensures s == Select(v4, v6, o)
  {
    var connect := Canonical(o.connectIP);
    if connect != [] {
      if MatchesRequestedFamily(connect, o.version) { return Selection([connect], 1, 0); }
      return Selection([], 0, 0);
    }
    var candidates;
    match o.version {
      case IPv4 => candidates := AppendCanonicalUniqueLoop([], v4);
      case IPv6 => candidates := AppendCanonicalUniqueLoop([], v6);
      case AnyFamily =>
        candidates := AppendCanonicalUniqueLoop([], v4);
        candidates := AppendCanonicalUniqueLoop(candidates, v6);
    }
    s := Selection([], |candidates|, 0);
    var limit := o.limit;
    if limit <= 0 { limit := DEFAULT_ADDRESS_LIMIT; }
    if o.clientEffective && limit > 2 { limit := 2; }
    if |candidates| > limit {
      s := s.(skipped := |candidates| - limit);
      candidates := candidates[..limit];
    }
    s := s.(addresses := candidates);
  }

  /** The candidates of a family are that answer's addresses; of both, the IPv4
      answer's first and then the IPv6 answer's, each address once. */
  lemma CandidatesInOrder(v4: seq<IP>, v6: seq<IP>)
    returns (first: seq<IP>, second: seq<IP>, at4: seq<nat>, at6: seq<nat>)
    ensures Candidates(v4, v6, IPv4) == first && AddsInOrder([], v4, first, at4)
    ensures Candidates(v4, v6, AnyFamily) == first + second && AddsInOrder(first, v6, second, at6)
    ensures NoDuplicates(first + second)
    ensures forall x :: x in Candidates(v4, v6, IPv6) <==> x != [] && exists v :: v in v6 && Canonical(v) == x
    ensures forall x :: x in first + second <==> x != [] && exists v :: (v in v4 || v in v6) && Canonical(v) == x
  {
    first, at4 := AppendInOrder([], v4);
    assert first == [] + first;
    second, at6 := AppendInOrder(first, v6);
  }

  /** The selected backends are distinct, accounted for, and the first candidates
      up to the bound: the configured limit, 4 without one, and 2 at most for a
      client-effective probe. A connect IP replaces the candidates by itself or,
      for the other family, by nothing. */
  lemma SelectionBounded(v4: seq<IP>, v6: seq<IP>, o: Options)
    ensures
      var s, candidates := Select(v4, v6, o), Candidates(v4, v6, o.version);
      && NoDuplicates(s.addresses) && |s.addresses| + s.skipped == s.total
      && (Canonical(o.connectIP) != [] ==>
            s.addresses == if MatchesRequestedFamily(Canonical(o.connectIP), o.version) then [Canonical(o.connectIP)] else [])
      && (Canonical(o.connectIP) == [] ==>
            && s.addresses <= candidates && s.total == |candidates|
            && (o.limit > 0 ==> |s.addresses| <= o.limit)
            && (o.limit <= 0 ==> |s.addresses| <= 4)
            && (o.clientEffective ==> |s.addresses| <= 2)
            && (s.skipped > 0 ==>
                  (|s.addresses| == 2 && o.clientEffective)
                  || |s.addresses| == (if o.limit > 0 then o.limit else 4)))
  {
  }

  /** End to end: the selection does not depend on the order of either answer. */
  lemma SelectionOrderIrrelevant(p4: seq<IP>, q4: seq<IP>, p6: seq<IP>, q6: seq<IP>, o: Options,
                                 a4: seq<IP>, b4: seq<IP>, a6: seq<IP>, b6: seq<IP>,
                                 i: nat, j: nat, k: nat, l: nat)
    requires multiset(p4) == multiset(q4) && multiset(p6) == multiset(q6)
    requires IsNormalized(p4, IPv4, a4, i) && IsNormalized(q4, IPv4, b4, j)
    requires IsNormalized(p6, IPv6, a6, k) && IsNormalized(q6, IPv6, b6, l)
    ensures Select(a4, a6, o) == Select(b4, b6, o)
  {
    ResolverOrderIrrelevant(p4, q4, IPv4, a4, b4, i, j);
    ResolverOrderIrrelevant(p6, q6, IPv6, a6, b6, k, l);
  }
}
