/** ORDER BY ... LIMIT over a finite table: rankings of ids by a two-part key, ties in any order. */
module Ranking {
  import opened Domain
  import opened Dag

  type Key = (int, int)
  type Keys = map<TaskId, Key>

  predicate Leq(a: Key, b: Key) {
    a.0 < b.0 || (a.0 == b.0 && a.1 <= b.1)
  }

  predicate Sorted(keys: Keys, r: seq<TaskId>) {
    && (forall i :: 0 <= i < |r| ==> r[i] in keys)
    && (forall i, j :: 0 <= i < j < |r| ==> Leq(keys[r[i]], keys[r[j]]))
  }

  /** All the ids, each once, in key order. */
  ghost predicate IsRanking(keys: Keys, r: seq<TaskId>) {
    Sorted(keys, r) && Distinct(r) && forall x :: x in keys ==> x in r
  }

  /** What the query may return: as many distinct ids as the limit and the table allow, in
      key order, and none left behind that sorts before a returned one. */
  predicate IsTop(keys: Keys, limit: nat, top: seq<TaskId>) {
    && Sorted(keys, top)
    && Distinct(top)
    && |top| == Min(limit, |keys|)
    && (forall x, i :: x in keys && x !in top && 0 <= i < |top| ==> Leq(keys[top[i]], keys[x]))
  }

  lemma {:induction false} SizeOfDistinct(r: seq<TaskId>, ids: set<TaskId>)
    requires Distinct(r) && forall x :: x in ids <==> x in r
    ensures |r| == |ids|
  {
    if r == [] {
      assert ids == {};
    } else {
      var n := |r| - 1;
      assert r[n] in r;
      assert r == r[..n] + [r[n]];
      SizeOfDistinct(r[..n], ids - {r[n]});
    }
  }

  lemma RankingSize(keys: Keys, r: seq<TaskId>)
    requires IsRanking(keys, r)
    ensures |r| == |keys|
  {
    assert forall x :: x in keys.Keys <==> x in r;
    SizeOfDistinct(r, keys.Keys);
    assert |keys.Keys| == |keys|;
  }

  lemma {:induction false} Smallest(keys: Keys, ids: set<TaskId>) returns (m: TaskId)
    requires ids <= keys.Keys && ids != {}
    ensures m in ids && forall x :: x in ids ==> Leq(keys[m], keys[x])
    decreases ids
  {
    m :| m in ids;
    if ids != {m} {
      var rest := Smallest(keys, ids - {m});
      if Leq(keys[rest], keys[m]) {
        m := rest;
      }
    }
  }

  /** Every finite table has a ranking. */
  lemma {:induction false} RankingExists(keys: Keys) returns (r: seq<TaskId>)
    ensures IsRanking(keys, r)
    decreases keys.Keys
  {
    if keys.Keys == {} {
      return [];
    }
    var m := Smallest(keys, keys.Keys);
    var less := Without(keys, m);
    assert less.Keys == keys.Keys - {m};
    var tail := RankingExists(less);
    r := [m] + tail;
    forall x | x in keys ensures x in r {
      assert x == m == r[0] || x in less;
    }
  }

  /** A result of the query is exactly a prefix of some ranking, cut at the limit. */
  lemma TopIffPrefix(keys: Keys, limit: nat, top: seq<TaskId>)
    ensures IsTop(keys, limit, top) <==>
            exists r :: IsRanking(keys, r) && |r| == |keys| && top == r[..Min(limit, |keys|)]
  {
    if IsTop(keys, limit, top) {
      var r := Extend(keys, limit, top);
      assert IsRanking(keys, r);
    }
    if r :| IsRanking(keys, r) && |r| == |keys| && top == r[..Min(limit, |keys|)] {
      forall x, i | x in keys && x !in top && 0 <= i < |top| ensures Leq(keys[top[i]], keys[x]) {
        var j :| 0 <= j < |r| && r[j] == x;
        assert j >= |top|;
        assert top[i] == r[i];
      }
    }
  }

  lemma Extend(keys: Keys, limit: nat, top: seq<TaskId>) returns (r: seq<TaskId>)
    requires IsTop(keys, limit, top)
    ensures IsRanking(keys, r) && |r| == |keys| && top == r[..Min(limit, |keys|)]
  {
    var rest := map x | x in keys && x !in top :: keys[x];
    var tail := RankingExists(rest);
    r := top + tail;
    RankingSize(keys, r);
  }

  lemma TopExists(keys: Keys, limit: nat) returns (top: seq<TaskId>)
    ensures IsTop(keys, limit, top)
  {
    var r := RankingExists(keys);
    RankingSize(keys, r);
    top := r[..Min(limit, |keys|)];
    TopIffPrefix(keys, limit, top);
  }

  ghost predicate NoTies(keys: Keys) {
    forall x, y :: x in keys && y in keys && x != y ==> keys[x] != keys[y]
  }

  lemma SameHead(keys: Keys, a: seq<TaskId>, b: seq<TaskId>)
    requires IsRanking(keys, a) && IsRanking(keys, b) && a != [] && b != [] && NoTies(keys)
    ensures a[0] == b[0]
  {
    var i :| 0 <= i < |b| && b[i] == a[0];
    var j :| 0 <= j < |a| && a[j] == b[0];
    assert Leq(keys[b[0]], keys[b[i]]) && Leq(keys[a[0]], keys[a[j]]);
  }

  function Without(keys: Keys, m: TaskId): Keys {
    map x | x in keys && x != m :: keys[x]
  }

  /** Without ties the order is forced. */
  lemma {:induction false} RankingUnique(keys: Keys, a: seq<TaskId>, b: seq<TaskId>)
    requires IsRanking(keys, a) && IsRanking(keys, b) && NoTies(keys)
    ensures a == b
    decreases |a|
  {
    var less := Peel(keys, a, b);
    if a != [] {
      RankingUnique(less, a[1..], b[1..]);
      Rejoin(a, b);
    }
  }

  lemma Rejoin(a: seq<TaskId>, b: seq<TaskId>)
    requires a != [] && b != [] && a[0] == b[0] && a[1..] == b[1..]
    ensures a == b
  {
    assert a == [a[0]] + a[1..];
  }

  lemma Peel(keys: Keys, a: seq<TaskId>, b: seq<TaskId>) returns (less: Keys)
    requires IsRanking(keys, a) && IsRanking(keys, b) && NoTies(keys)
    ensures |a| == |b|
    ensures a != [] ==> a[0] == b[0] && IsRanking(less, a[1..]) && IsRanking(less, b[1..]) && NoTies(less)
  {
    RankingSize(keys, a);
    RankingSize(keys, b);
    less := keys;
    if a != [] {
      SameHead(keys, a, b);
      RankingTail(keys, a);
      RankingTail(keys, b);
      less := Without(keys, a[0]);
    }
  }

  lemma RankingTail(keys: Keys, a: seq<TaskId>)
    requires IsRanking(keys, a) && a != []
    ensures IsRanking(Without(keys, a[0]), a[1..])
    ensures NoTies(keys) ==> NoTies(Without(keys, a[0]))
  {
    forall x | x in keys && x != a[0] ensures x in a[1..] {
      InTail(a, x);
    }
  }

  lemma InTail(a: seq<TaskId>, x: TaskId)
    requires a != [] && x in a && x != a[0]
    ensures x in a[1..]
  {
    assert a == [a[0]] + a[1..];
  }

  // ----- ties -----

  function Swapped(a: seq<TaskId>, i: nat): seq<TaskId>
    requires i + 1 < |a|
  {
    a[i := a[i + 1]][i + 1 := a[i]]
  }

  /** Neighbours with equal keys may change places. */
  lemma SwapStaysRanking(keys: Keys, a: seq<TaskId>, i: nat)
    requires IsRanking(keys, a) && i + 1 < |a| && keys[a[i]] == keys[a[i + 1]]
    ensures IsRanking(keys, Swapped(a, i))
  {
    var b := Swapped(a, i);
    forall x | x in keys ensures x in b {
      SwapKeeps(a, i, x);
    }
    forall j, k | 0 <= j < k < |b| ensures b[j] != b[k] && Leq(keys[b[j]], keys[b[k]]) {
      assert b[j] == a[Turned(i, j)] && b[k] == a[Turned(i, k)];
    }
  }

  /** Where the element at position j of the swapped sequence comes from. */
  function Turned(i: nat, j: nat): nat {
    if j == i then i + 1 else if j == i + 1 then i else j
  }

  lemma SwapKeeps(a: seq<TaskId>, i: nat, x: TaskId)
    requires i + 1 < |a| && x in a
    ensures x in Swapped(a, i)
  {
    var j :| 0 <= j < |a| && a[j] == x;
    assert Swapped(a, i)[Turned(i, j)] == x;
  }

  /** Equal keys anywhere are equal keys of neighbours in every ranking. */
  lemma TieIsAdjacent(keys: Keys, a: seq<TaskId>, x: TaskId, y: TaskId) returns (i: nat)
    requires IsRanking(keys, a) && x in keys && y in keys && x != y && keys[x] == keys[y]
    ensures i + 1 < |a| && keys[a[i]] == keys[a[i + 1]]
  {
    var j :| 0 <= j < |a| && a[j] == x;
    var k :| 0 <= k < |a| && a[k] == y;
    i := if j < k then j else k;
    assert Leq(keys[a[i]], keys[a[i + 1]]);
    assert i + 1 == Max(j, k) || Leq(keys[a[i + 1]], keys[a[Max(j, k)]]);
  }

  function Max(x: int, y: int): int {
    if x < y then y else x
  }

  /** The order is the same for all queries exactly when no two keys are equal. */
  lemma UniqueIffNoTies(keys: Keys)
    ensures NoTies(keys) <==> forall a, b :: IsRanking(keys, a) && IsRanking(keys, b) ==> a == b
  {
    if NoTies(keys) {
      forall a, b | IsRanking(keys, a) && IsRanking(keys, b) ensures a == b {
        RankingUnique(keys, a, b);
      }
    } else {
      var x, y :| x in keys && y in keys && x != y && keys[x] == keys[y];
      var a := RankingExists(keys);
      var i := TieIsAdjacent(keys, a, x, y);
      SwapStaysRanking(keys, a, i);
      assert a[i] != Swapped(a, i)[i];
    }
  }

  // ----- cutting two rankings at the same place -----

  function Elements(a: seq<TaskId>): set<TaskId> {
    set x | x in a
  }

  lemma {:induction false} SubsetSize(small: set<TaskId>, large: set<TaskId>)
    requires small <= large
    ensures |small| <= |large|
    ensures |small| == |large| ==> small == large
  {
    if small != {} {
      var x :| x in small;
      SubsetSize(small - {x}, large - {x});
    }
  }

  lemma PrefixSize(a: seq<TaskId>, k: nat)
    requires Distinct(a) && k <= |a|
    ensures |Elements(a[..k])| == k
  {
    SizeOfDistinct(a[..k], Elements(a[..k]));
  }

  /** A strict step in one ranking: what stands above it stands above it in all others. */
  lemma AboveTheStep(keys: Keys, r: seq<TaskId>, a: seq<TaskId>, k: nat, i: nat)
    requires IsRanking(keys, r) && IsRanking(keys, a) && 0 < k < |r| && keys[r[k - 1]] != keys[r[k]]
    requires i < k && i < |a|
    ensures a[i] in r[..k]
  {
    if a[i] !in r[..k] {
      BelowOnly(keys, r, a, k, i);
      PrefixSize(r, k);
      PrefixSize(a, i);
      SubsetSize(Elements(r[..k]), Elements(a[..i]));
    }
  }

  lemma BelowOnly(keys: Keys, r: seq<TaskId>, a: seq<TaskId>, k: nat, i: nat)
    requires IsRanking(keys, r) && IsRanking(keys, a) && 0 < k < |r| && keys[r[k - 1]] != keys[r[k]]
    requires i < |a| && a[i] !in r[..k]
    ensures Elements(r[..k]) <= Elements(a[..i])
  {
    var m :| 0 <= m < |r| && r[m] == a[i];
    assert k <= m;
    forall j | 0 <= j < k ensures r[j] in a[..i] {
      var n :| 0 <= n < |a| && a[n] == r[j];
      assert Leq(keys[r[j]], keys[r[k - 1]]) || j == k - 1;
      assert Leq(keys[r[k]], keys[r[m]]) || k == m;
      assert Leq(keys[r[k - 1]], keys[r[k]]);
      assert i < n ==> Leq(keys[a[i]], keys[a[n]]);
    }
  }

  lemma SamePrefix(keys: Keys, r: seq<TaskId>, a: seq<TaskId>, k: nat)
    requires IsRanking(keys, r) && IsRanking(keys, a) && 0 < k < |r| && keys[r[k - 1]] != keys[r[k]]
    ensures |a| == |r| && Elements(a[..k]) == Elements(r[..k])
  {
    RankingSize(keys, r);
    RankingSize(keys, a);
    forall x | x in a[..k] ensures x in r[..k] {
      var i :| 0 <= i < k && a[i] == x;
      AboveTheStep(keys, r, a, k, i);
    }
    PrefixSize(r, k);
    PrefixSize(a, k);
    SubsetSize(Elements(a[..k]), Elements(r[..k]));
  }

  /** The beginning of one ranking and the rest of another. */
  function Spliced(a: seq<TaskId>, b: seq<TaskId>, k: nat): seq<TaskId>
    requires k <= |a| && k <= |b|
  {
    a[..k] + b[k..]
  }

  lemma InSplice(keys: Keys, a: seq<TaskId>, b: seq<TaskId>, k: nat, x: TaskId)
    requires IsRanking(keys, a) && IsRanking(keys, b) && k <= |a| == |b| && Elements(a[..k]) == Elements(b[..k])
    ensures x in keys ==> x in Spliced(a, b, k)
    ensures x in b[k..] ==> x !in a[..k]
  {
    assert x in Elements(a[..k]) <==> x in Elements(b[..k]);
    assert x in b ==> x in b[..k] || x in b[k..] by { assert b == b[..k] + b[k..]; }
  }

  lemma SpliceIsRanking(keys: Keys, r: seq<TaskId>, a: seq<TaskId>, b: seq<TaskId>, k: nat)
    requires IsRanking(keys, r) && IsRanking(keys, a) && IsRanking(keys, b)
    requires 0 < k < |r| && keys[r[k - 1]] != keys[r[k]]
    ensures k <= |a| && k <= |b| && IsRanking(keys, Spliced(a, b, k))
  {
    SamePrefix(keys, r, a, k);
    SamePrefix(keys, r, b, k);
    var c := Spliced(a, b, k);
    forall x | x in keys ensures x in c {
      InSplice(keys, a, b, k, x);
    }
    forall i, j | 0 <= i < j < |c| ensures c[i] != c[j] && Leq(keys[c[i]], keys[c[j]]) {
      if i < k <= j {
        assert c[j] in b[k..] && c[i] in a[..k];
        InSplice(keys, a, b, k, c[j]);
        assert c[i] in Elements(a[..k]);
        var m :| 0 <= m < k && b[m] == c[i];
      }
    }
  }

  ghost predicate FitsAt(keys: Keys, a: seq<TaskId>, b: seq<TaskId>, k: nat) {
    k <= |a| && k <= |b| && IsRanking(keys, Spliced(a, b, k))
  }

  /** However two queries order the rows, the first k of one and the rest of the other are
      again a ranking. */
  ghost predicate AlwaysFits(keys: Keys, k: nat) {
    forall a, b :: IsRanking(keys, a) && IsRanking(keys, b) ==> FitsAt(keys, a, b, k)
  }

  lemma SwapDoesNotFit(keys: Keys, r: seq<TaskId>, k: nat)
    requires IsRanking(keys, r) && 0 < k < |r|
    ensures !FitsAt(keys, r, Swapped(r, k - 1), k)
  {
    var c := Spliced(r, Swapped(r, k - 1), k);
    assert c[k - 1] == c[k] == r[k - 1];
    assert !Distinct(c);
  }

  /** A cut at row k always fits exactly when the rows at the cut have different keys. */
  lemma CutIff(keys: Keys, r: seq<TaskId>, k: nat)
    requires IsRanking(keys, r) && 0 < k < |r|
    ensures keys[r[k - 1]] != keys[r[k]] <==> AlwaysFits(keys, k)
  {
    if keys[r[k - 1]] != keys[r[k]] {
      forall a, b | IsRanking(keys, a) && IsRanking(keys, b) ensures FitsAt(keys, a, b, k) {
        SpliceIsRanking(keys, r, a, b, k);
      }
    } else {
      SwapStaysRanking(keys, r, k - 1);
      SwapDoesNotFit(keys, r, k);
    }
  }

  /** Any tie lets two queries disagree by one place: the first i + 1 rows of one and the rest of
      the other repeat a row and miss its neighbour. */
  lemma TieRepeats(keys: Keys) returns (a: seq<TaskId>, b: seq<TaskId>, i: nat)
    requires !NoTies(keys)
    ensures IsRanking(keys, a) && IsRanking(keys, b)
    ensures i + 1 < |a| == |b| && a[i] == b[i + 1] && a[i + 1] == b[i] && a[i] != a[i + 1]
    ensures a[i + 1] !in Spliced(a, b, i + 1)
  {
    var x, y :| x in keys && y in keys && x != y && keys[x] == keys[y];
    a := RankingExists(keys);
    i := TieIsAdjacent(keys, a, x, y);
    SwapStaysRanking(keys, a, i);
    b := Swapped(a, i);
    MissesNeighbour(a, i);
  }

  lemma MissesNeighbour(a: seq<TaskId>, i: nat)
    requires Distinct(a) && i + 1 < |a|
    ensures a[i + 1] !in Spliced(a, Swapped(a, i), i + 1)
  {
    var c := Spliced(a, Swapped(a, i), i + 1);
    forall j | 0 <= j < |c| ensures c[j] != a[i + 1] {
      assert c[j] == a[if j == i + 1 then i else j];
    }
  }
}
