/** Repo.List: filtering, counting and LIMIT/OFFSET paging with the casts of its Go code. */
module Paging {
  import opened Domain
  import opened Store
  import Backoff
  import Ranking

  /** ListFilter; an absent status or an empty type matches everything. */
  datatype Filter = Filter(status: Option<Status>, kind: string, page: int, size: int)

  datatype Listing = Listing(ids: seq<TaskId>, tasks: seq<Task>, total: nat)

  predicate Matches(t: Task, f: Filter) {
    (f.status.None? || t.status == f.status.value) && (f.kind == "" || t.kind == f.kind)
  }

  /** The matching rows under ORDER BY created_at DESC. */
  function Matching(db: Db, f: Filter): Ranking.Keys {
    map x | x in db.tasks && Matches(db.tasks[x], f) :: (0 - db.tasks[x].createdAt, 0)
  }

  function Size(size: int): (r: int)
    ensures r > 0
  {
    if size <= 0 then 50 else size
  }

  /** LIMIT and OFFSET over the sorted rows. */
  function Slice(order: seq<TaskId>, offset: nat, limit: nat): seq<TaskId> {
    order[Min(offset, |order|)..Min(offset + limit, |order|)]
  }

  /** (Page - 1) * PageSize in int64, cast to int32. */
  function Offset(page: int, size: int): int {
    Int32(Backoff.Wrap64(((if page <= 0 then 1 else page) - 1) * Size(size)))
  }

  /** One page of the sorted rows; a negative LIMIT or OFFSET is a query error. */
  function Page(order: seq<TaskId>, page: int, size: int): Option<seq<TaskId>> {
    var limit, offset := Int32(Size(size)), Offset(page, size);
    if limit < 0 || offset < 0 then None else Some(Slice(order, offset, limit))
  }

  /** The rows the filter asks for. */
  function Asked(db: Db, f: Filter): set<TaskId> {
    set x | x in db.tasks && (f.status.Some? ==> db.tasks[x].status == f.status.value) &&
            (f.kind != "" ==> db.tasks[x].kind == f.kind)
  }

  /** All of them, each once, newest first: an order the database may have sorted them in. */
  ghost predicate NewestFirst(db: Db, f: Filter, order: seq<TaskId>) {
    && (forall x :: x in order <==> x in Asked(db, f))
    && (forall i :: 0 <= i < |order| ==> order[i] in db.tasks)
    && (forall i, j :: 0 <= i < j < |order| ==>
          order[i] != order[j] && db.tasks[order[i]].createdAt >= db.tasks[order[j]].createdAt)
  }

  lemma OrderIsRanking(db: Db, f: Filter, order: seq<TaskId>)
    ensures NewestFirst(db, f, order) <==> Ranking.IsRanking(Matching(db, f), order)
    ensures Matching(db, f).Keys == Asked(db, f) && |Matching(db, f)| == |Asked(db, f)|
  {
    var keys := Matching(db, f);
    assert keys.Keys == Asked(db, f);
    assert |keys.Keys| == |keys|;
    if NewestFirst(db, f, order) {
      forall i | 0 <= i < |order| ensures order[i] in keys {
        assert order[i] in order;
      }
    }
    if Ranking.IsRanking(keys, order) {
      forall x ensures x in order <==> x in Asked(db, f) {
        if x in order {
          var i :| 0 <= i < |order| && order[i] == x;
        }
      }
    }
  }

  lemma CountIsRight(db: Db, f: Filter)
    ensures |Matching(db, f)| == |Asked(db, f)|
  {
    OrderIsRanking(db, f, []);
  }

  lemma OrderSize(db: Db, f: Filter, order: seq<TaskId>)
    requires NewestFirst(db, f, order)
    ensures |order| == |Asked(db, f)|
  {
    OrderIsRanking(db, f, order);
    Ranking.RankingSize(Matching(db, f), order);
  }

  /** The lower 32 bits of the number have their sign bit set. */
  predicate CastIsNegative(x: int) {
    x % 0x1_0000_0000 >= 0x8000_0000
  }

  /** What survives the cast of a number to a non-negative int32. */
  lemma CastIff(x: int)
    ensures Int32(x) >= 0 <==> !CastIsNegative(x)
    ensures Int32(Backoff.Wrap64(x)) >= 0 <==> !CastIsNegative(x)
    ensures 0 <= x < 0x8000_0000 ==> Int32(x) == x == Int32(Backoff.Wrap64(x))
  {
    var c := Backoff.WrapIsShifted(x);
    SameRemainder(x, Backoff.Wrap64(x), c);
    SignOfCast(x);
    SignOfCast(Backoff.Wrap64(x));
  }

  lemma SignOfCast(x: int)
    ensures Int32(x) >= 0 <==> !CastIsNegative(x)
  {
    Int32Wraps(x);
  }

  lemma SameRemainder(x: int, y: int, c: int)
    requires y == x - c * Backoff.TWO64
    ensures y % 0x1_0000_0000 == x % 0x1_0000_0000
  {
    var d := 0x1_0000_0000;
    var q, r := x / d, x % d;
    assert y == (q - c * d) * d + r;
  }

  /** Rows on a page, and rows before it, as the caller means them. */
  function PerPage(size: int): (z: nat)
    ensures z == (if size <= 0 then 50 else size) && z > 0
  {
    if size <= 0 then 50 else size
  }

  function Skipped(page: int, size: int): (k: nat)
    ensures page <= 1 ==> k == 0
    ensures page > 1 ==> k == (page - 1) * PerPage(size)
  {
    if page <= 1 then 0
    else
      MonotoneProduct(0, page - 1, PerPage(size));
      (page - 1) * PerPage(size)
  }

  /** The count and the page are two queries: `counted` and `db` are the tables they saw, and
      `order` is the order in which the second sorted its matching rows.  Page and size default
      to 1 and 50; a LIMIT or OFFSET whose int32 cast is negative is an error. */
  method List(counted: Db, db: Db, f: Filter, order: seq<TaskId>) returns (r: Option<Listing>)
    requires NewestFirst(db, f, order)
    ensures r.None? <==> CastIsNegative(PerPage(f.size)) || CastIsNegative(Skipped(f.page, f.size))
    ensures r.Some? ==> r.value.total == |Asked(counted, f)| && Fetched(db, f, r.value.ids, r.value.tasks)
    ensures var size, skip, all := PerPage(f.size), Skipped(f.page, f.size), |Asked(db, f)|;
            size < 0x8000_0000 && skip < 0x8000_0000 ==>
              && r.Some?
              && |r.value.ids| == (if skip >= all then 0 else if skip + size <= all then size else all - skip)
              && forall i :: 0 <= i < |r.value.ids| ==> skip + i < |order| && r.value.ids[i] == order[skip + i]
    ensures f.page <= 1 && f.size < 0x8000_0000 ==>
              && r.Some?
              && forall x, i :: x in Asked(db, f) && x !in r.value.ids && 0 <= i < |r.value.ids| ==>
                   r.value.ids[i] in db.tasks && db.tasks[x].createdAt <= db.tasks[r.value.ids[i]].createdAt
    ensures r.Some? ==> Page(order, f.page, f.size) == Some(r.value.ids)
  {
    var total := |Matching(counted, f)|;
    CountIsRight(counted, f);
    OrderSize(db, f, order);
    PageIsRight(order, f.page, f.size);
    var page := Page(order, f.page, f.size);
    if page.None? {
      return None;
    }
    var rows := page.value;
    PageIsSorted(db, f, order, rows);
    if f.page <= 1 && f.size < 0x8000_0000 {
      FirstPageIsNewest(db, f, order, rows);
    }
    var tasks := Load(db, rows);
    LoadedIsFetched(db, f, rows, tasks);
    return Some(Listing(rows, tasks, total));
  }

  /** Rows as asked for, with their columns, newest first and none twice. */
  predicate Fetched(db: Db, f: Filter, ids: seq<TaskId>, tasks: seq<Task>) {
    && |tasks| == |ids|
    && (forall i :: 0 <= i < |ids| ==>
          && ids[i] in db.tasks && tasks[i] == db.tasks[ids[i]]
          && (f.status.Some? ==> tasks[i].status == f.status.value)
          && (f.kind != "" ==> tasks[i].kind == f.kind))
    && (forall i, j :: 0 <= i < j < |ids| ==> ids[i] != ids[j] && tasks[i].createdAt >= tasks[j].createdAt)
  }

  lemma LoadedIsFetched(db: Db, f: Filter, ids: seq<TaskId>, tasks: seq<Task>)
    requires |tasks| == |ids| && forall i :: 0 <= i < |ids| ==> ids[i] in db.tasks && ids[i] in Asked(db, f)
    requires forall i :: 0 <= i < |ids| ==> tasks[i] == db.tasks[ids[i]]
    requires forall i, j :: 0 <= i < j < |ids| ==>
               ids[i] != ids[j] && db.tasks[ids[i]].createdAt >= db.tasks[ids[j]].createdAt
    ensures Fetched(db, f, ids, tasks)
  {
  }

  /** The loop that scans the rows. */
  method Load(db: Db, rows: seq<TaskId>) returns (tasks: seq<Task>)
    requires forall i :: 0 <= i < |rows| ==> rows[i] in db.tasks
    ensures |tasks| == |rows| && forall i :: 0 <= i < |rows| ==> tasks[i] == db.tasks[rows[i]]
  {
    tasks := [];
    for i := 0 to |rows|
      invariant |tasks| == i
      invariant forall j :: 0 <= j < i ==> tasks[j] == db.tasks[rows[j]]
    {
      tasks := tasks + [db.tasks[rows[i]]];
    }
  }

  /** The page, by its bounds. */
  lemma PageIsRight(order: seq<TaskId>, page: int, size: int)
    ensures var z, skip, rows := PerPage(size), Skipped(page, size), Page(order, page, size);
            && (rows.None? <==> CastIsNegative(z) || CastIsNegative(skip))
            && (z < 0x8000_0000 && skip < 0x8000_0000 ==>
                  && rows.Some?
                  && |rows.value| == (if skip >= |order| then 0 else if skip + z <= |order| then z else |order| - skip)
                  && forall i :: 0 <= i < |rows.value| ==> skip + i < |order| && rows.value[i] == order[skip + i])
  {
    OffsetIsSkipped(page, size);
    CastIff(PerPage(size));
    CastIff(Skipped(page, size));
  }

  lemma OffsetIsSkipped(page: int, size: int)
    ensures Size(size) == PerPage(size) && Offset(page, size) == Int32(Backoff.Wrap64(Skipped(page, size)))
  {
    if page <= 1 {
      assert ((if page <= 0 then 1 else page) - 1) * Size(size) == 0;
    }
  }

  /** A page is a stretch of the order. */
  lemma PageInOrder(order: seq<TaskId>, page: int, size: int) returns (k: nat)
    requires Page(order, page, size).Some?
    ensures var rows := Page(order, page, size).value;
            k + |rows| <= |order| && rows == order[k..k + |rows|]
  {
    var offset, limit := Offset(page, size), Int32(Size(size));
    k := Min(offset, |order|);
    var rows := Slice(order, offset, limit);
    assert rows == order[k..k + |rows|];
  }

  /** Its rows are among those asked for, distinct, newest first. */
  lemma PageIsSorted(db: Db, f: Filter, order: seq<TaskId>, rows: seq<TaskId>)
    requires NewestFirst(db, f, order) && Page(order, f.page, f.size) == Some(rows)
    ensures forall i :: 0 <= i < |rows| ==> rows[i] in db.tasks && rows[i] in Asked(db, f)
    ensures forall i, j :: 0 <= i < j < |rows| ==>
              rows[i] != rows[j] && db.tasks[rows[i]].createdAt >= db.tasks[rows[j]].createdAt
  {
    var k := PageInOrder(order, f.page, f.size);
    forall i | 0 <= i < |rows| ensures rows[i] == order[k + i] && rows[i] in Asked(db, f) {
      assert order[k + i] in order;
    }
  }

  /** On page 1 nothing newer is left out. */
  lemma FirstPageIsNewest(db: Db, f: Filter, order: seq<TaskId>, rows: seq<TaskId>)
    requires NewestFirst(db, f, order) && Page(order, f.page, f.size) == Some(rows)
    requires f.page <= 1 && f.size < 0x8000_0000
    ensures forall x, i :: x in Asked(db, f) && x !in rows && 0 <= i < |rows| ==>
              db.tasks[x].createdAt <= db.tasks[rows[i]].createdAt
  {
    FirstPageIsPrefix(order, f.page, f.size);
    forall x, i | x in Asked(db, f) && x !in rows && 0 <= i < |rows|
      ensures db.tasks[x].createdAt <= db.tasks[rows[i]].createdAt
    {
      assert x in order;
      var j :| 0 <= j < |order| && order[j] == x;
      assert rows[i] == order[i];
      assert j >= |rows|;
    }
  }

  lemma FirstPageIsPrefix(order: seq<TaskId>, page: int, size: int)
    requires page <= 1 && size < 0x8000_0000
    ensures Page(order, page, size).Some?
    ensures var rows := Page(order, page, size).value; |rows| <= |order| && rows == order[..|rows|]
  {
    PageIsRight(order, page, size);
    var rows := Page(order, page, size).value;
    assert |rows| <= |order|;
    forall i | 0 <= i < |rows| ensures rows[i] == order[i] {
      assert rows[i] == order[Skipped(page, size) + i];
    }
  }

  /** The concatenation of pages 1 to k, if none of them fails. */
  function Pages(order: seq<TaskId>, size: int, k: nat): Option<seq<TaskId>> {
    if k == 0 then Some([])
    else
      var front, last := Pages(order, size, k - 1), Page(order, k, size);
      if front.None? || last.None? then None else Some(front.value + last.value)
  }

  function PageCount(total: nat, size: int): nat {
    (total + Size(size) - 1) / Size(size)
  }

  lemma CeilDivision(x: nat, d: nat) returns (q: nat)
    requires d > 0
    ensures q == (x + d - 1) / d && (q - 1) * d < x <= q * d
  {
    q := (x + d - 1) / d;
    assert x + d - 1 == q * d + (x + d - 1) % d;
  }

  lemma MonotoneProduct(a: int, b: int, d: nat)
    requires a <= b
    ensures a * d <= b * d
  {
  }

  lemma OneLess(k: nat, d: nat)
    requires k > 0
    ensures (k - 1) * d == k * d - d && k * d >= d
  {
    MonotoneProduct(1, k, d);
  }

  lemma NoWrap(x: int)
    requires 0 <= x < TWO32
    ensures Backoff.Wrap64(x) == x
    ensures x >= TWO31 ==> Int32(x) < 0
  {
  }

  lemma OffsetOf(k: nat, size: int, x: nat)
    requires k > 0 && x == (k - 1) * Size(size) && x < TWO32
    ensures if x < TWO31 then Offset(k, size) == x else Offset(k, size) < 0
  {
    NoWrap(x);
  }

  lemma NextPage(order: seq<TaskId>, size: int, k: nat, x: nat)
    requires k > 0 && x == (k - 1) * Size(size) && x < TWO31 && Size(size) < TWO31
    ensures Page(order, k, size) == Some(Slice(order, x, Size(size)))
  {
    OffsetOf(k, size, x);
  }

  lemma Extends(order: seq<TaskId>, x: nat, z: nat)
    ensures order[..Min(x, |order|)] + Slice(order, x, z) == order[..Min(x + z, |order|)]
  {
  }

  lemma {:induction false} PagesPrefix(order: seq<TaskId>, size: int, k: nat, x: nat)
    requires x == k * Size(size) && x < TWO31 + Size(size) && Size(size) < TWO31
    ensures Pages(order, size, k) == Some(order[..Min(x, |order|)])
  {
    if k > 0 {
      var z := Size(size);
      var y := (k - 1) * z;
      assert y + z == x;
      PagesPrefix(order, size, k - 1, y);
      NextPage(order, size, k, y);
      Extends(order, y, z);
    }
  }

  lemma {:induction false} FailureStays(order: seq<TaskId>, size: int, j: nat, k: nat)
    requires 0 < j <= k && Page(order, j, size).None?
    ensures Pages(order, size, k).None?
  {
    if j < k {
      FailureStays(order, size, j, k - 1);
    }
  }

  lemma PageIsShort(order: seq<TaskId>, size: int, k: nat)
    requires Page(order, k, size).Some?
    ensures |Page(order, k, size).value| <= Int32(Size(size))
  {
  }

  lemma {:induction false} PagesAreShort(order: seq<TaskId>, size: int, k: nat, x: nat)
    requires Pages(order, size, k).Some? && Int32(Size(size)) >= 0 && x == k * Int32(Size(size))
    ensures |Pages(order, size, k).value| <= x
  {
    if k > 0 {
      var limit := Int32(Size(size));
      OneLess(k, limit);
      PageIsShort(order, size, k);
      PagesAreShort(order, size, k - 1, x - limit);
    }
  }

  /** When the casts leave n pages intact, by the number of rows and the page size. */
  predicate Covers(total: nat, size: int, n: nat) {
    || total == 0
    || total <= Int32(Size(size))
    || (Size(size) < TWO31 && (n - 1) * Size(size) < TWO31)
  }

  lemma LastOffsetTooFar(order: seq<TaskId>, size: int, n: nat)
    requires Size(size) < TWO31 && (n - 1) * Size(size) >= TWO31
    ensures Pages(order, size, n).None?
  {
    var z := Size(size);
    var q := CeilDivision(TWO31, z);
    if n <= q {
      MonotoneProduct(n - 1, q - 1, z);
    } else {
      assert q * z == (q - 1) * z + z;
      OffsetOf(q + 1, size, q * z);
      FailureStays(order, size, q + 1, n);
    }
  }

  lemma OversizedLimit(order: seq<TaskId>, size: int, n: nat)
    requires Size(size) >= TWO31 && |order| > Int32(Size(size)) && n > 0 && (n - 1) * Size(size) < |order|
    ensures Pages(order, size, n) != Some(order)
  {
    var limit := Int32(Size(size));
    if limit < 0 {
      FailureStays(order, size, 1, n);
    } else if Pages(order, size, n).Some? {
      PagesAreShort(order, size, n, n * limit);
      if n > 1 {
        CastOfLarge(Size(size));
        TooFewRows(n, limit, Size(size));
      }
    }
  }

  lemma CastOfLarge(z: int)
    requires z >= TWO31 && Int32(z) >= 0
    ensures z >= TWO32
  {
  }

  lemma TooFewRows(n: nat, limit: nat, z: nat)
    requires n > 1 && limit < TWO31 && z >= TWO32
    ensures n * limit <= (n - 1) * z
  {
    calc {
      n * limit;
    <= { MonotoneProduct(limit, TWO31, n); }
      n * TWO31;
    <=
      (n - 1) * TWO32;
    <= { MonotoneProduct(TWO32, z, n - 1); }
      (n - 1) * z;
    }
  }

  lemma FirstPageSuffices(order: seq<TaskId>, size: int)
    requires 0 < |order| <= Int32(Size(size))
    ensures Pages(order, size, 1) == Some(order)
  {
    OffsetOf(1, size, 0);
    assert Slice(order, 0, Int32(Size(size))) == order;
    assert Page(order, 1, size) == Some(order);
    assert Pages(order, size, 0).value + order == order;
  }

  lemma CastIsSmaller(z: int)
    requires z > 0
    ensures Int32(z) <= z
  {
  }

  lemma PageCountIs(n: nat, z: nat, total: nat)
    requires (n - 1) * z < total <= n * z
    ensures total == 0 ==> n == 0
    ensures 0 < total <= z ==> n == 1
  {
    if n > 0 {
      MonotoneProduct(0, n - 1, z);
    }
    if n > 1 {
      MonotoneProduct(1, n - 1, z);
    }
  }

  lemma PartitionOf(order: seq<TaskId>, size: int, n: nat)
    requires (n - 1) * Size(size) < |order| <= n * Size(size)
    ensures Pages(order, size, n) == Some(order) <==> Covers(|order|, size, n)
  {
    var z := Size(size);
    CastIsSmaller(z);
    PageCountIs(n, z, |order|);
    if |order| == 0 {
    } else if |order| <= Int32(z) {
      FirstPageSuffices(order, size);
    } else if z >= TWO31 {
      OversizedLimit(order, size, n);
    } else if (n - 1) * z < TWO31 {
      OneLess(n, z);
      PagesPrefix(order, size, n, n * z);
      assert order[..|order|] == order;
    } else {
      LastOffsetTooFar(order, size, n);
    }
  }

  /** Pages 1 to ceil(total / size), put together, are the whole sorted list, without gap or
      repeat, exactly when the last offset and the size survive their int32 casts. */
  lemma PagesPartition(order: seq<TaskId>, size: int)
    ensures var n := PageCount(|order|, size);
            Pages(order, size, n) == Some(order) <==> Covers(|order|, size, n)
  {
    var n := CeilDivision(|order|, Size(size));
    PartitionOf(order, size, n);
  }

  // ----- pages of separate queries -----

  ghost predicate DistinctTimes(db: Db, f: Filter) {
    forall x, y :: x in Matching(db, f) && y in Matching(db, f) && x != y ==>
      db.tasks[x].createdAt != db.tasks[y].createdAt
  }

  lemma TimesAreKeys(db: Db, f: Filter)
    ensures DistinctTimes(db, f) <==> Ranking.NoTies(Matching(db, f))
  {
  }

  /** All queries over one table sort its matching rows alike exactly when no two of them were
      created at the same time. */
  lemma OrderFixedIff(db: Db, f: Filter)
    ensures DistinctTimes(db, f) <==>
            forall a, b :: Ranking.IsRanking(Matching(db, f), a) && Ranking.IsRanking(Matching(db, f), b) ==> a == b
  {
    TimesAreKeys(db, f);
    Ranking.UniqueIffNoTies(Matching(db, f));
  }

  /** In any table where two matching rows were created at the same time, two correct queries
      exist of which one returns a row last on its page i + 1 of size 1 and the other the same
      row on page i + 2, so that fetching both pages repeats that row and misses its neighbour. */
  lemma TiesCanRepeat(db: Db, f: Filter) returns (a: seq<TaskId>, b: seq<TaskId>, i: nat)
    requires !DistinctTimes(db, f)
    ensures Ranking.IsRanking(Matching(db, f), a) && Ranking.IsRanking(Matching(db, f), b)
    ensures i + 1 < |a| == |b| && a[i] == b[i + 1] && a[i + 1] == b[i] && a[i] != a[i + 1]
    ensures a[i + 1] !in Ranking.Spliced(a, b, i + 1)
    ensures i + 1 < TWO31 ==> Page(a, i + 1, 1) == Page(b, i + 2, 1) == Some([a[i]])
  {
    TimesAreKeys(db, f);
    a, b, i := Ranking.TieRepeats(Matching(db, f));
    if i + 1 < TWO31 {
      SingleRow(a, i);
      SingleRow(b, i + 1);
    }
  }

  lemma SingleRow(a: seq<TaskId>, i: nat)
    requires i < |a| && i < TWO31
    ensures Page(a, i + 1, 1) == Some([a[i]])
  {
    OffsetOf(i + 1, 1, i);
    assert Slice(a, i, 1) == [a[i]];
  }

  /** Pages 1 to p of one query, and all rows from there on of another, make a sorted list of
      all rows. */
  ghost predicate Together(keys: Ranking.Keys, a: seq<TaskId>, b: seq<TaskId>, size: int, p: nat, k: nat) {
    Pages(a, size, p).Some? && k <= |b| && Ranking.IsRanking(keys, Pages(a, size, p).value + b[k..])
  }

  lemma TogetherIsSpliced(keys: Ranking.Keys, a: seq<TaskId>, b: seq<TaskId>, size: int, p: nat, k: nat)
    requires k == p * Size(size) && k < TWO31 && Size(size) < TWO31 && k <= |a|
    ensures Together(keys, a, b, size, p, k) <==> Ranking.FitsAt(keys, a, b, k)
  {
    PagesPrefix(a, size, p, k);
    assert Pages(a, size, p) == Some(a[..k]);
  }

  lemma SameSize(keys: Ranking.Keys, a: seq<TaskId>, b: seq<TaskId>)
    requires Ranking.IsRanking(keys, a) && Ranking.IsRanking(keys, b)
    ensures |a| == |b|
  {
    Ranking.RankingSize(keys, a);
    Ranking.RankingSize(keys, b);
  }

  ghost predicate AlwaysTogether(keys: Ranking.Keys, size: int, p: nat, k: nat) {
    forall a, b :: Ranking.IsRanking(keys, a) && Ranking.IsRanking(keys, b) ==> Together(keys, a, b, size, p, k)
  }

  lemma AlwaysIff(keys: Ranking.Keys, order: seq<TaskId>, size: int, p: nat, k: nat)
    requires Ranking.IsRanking(keys, order) && k < |order|
    requires k == p * Size(size) && k < TWO31 && Size(size) < TWO31
    ensures AlwaysTogether(keys, size, p, k) <==> Ranking.AlwaysFits(keys, k)
  {
    forall a, b | Ranking.IsRanking(keys, a) && Ranking.IsRanking(keys, b)
      ensures Together(keys, a, b, size, p, k) <==> Ranking.FitsAt(keys, a, b, k)
    {
      SameSize(keys, a, order);
      TogetherIsSpliced(keys, a, b, size, p, k);
    }
  }

  /** Pages 1 to p of one query and the later pages of another fit together, whatever orders the
      two chose, exactly when the last row of page p and the first row of page p + 1 were created
      at different times. */
  lemma PagesFitIff(db: Db, f: Filter, order: seq<TaskId>, size: int, p: nat, k: nat)
    requires Ranking.IsRanking(Matching(db, f), order) && 0 < k < |order|
    requires k == p * Size(size) && k < TWO31 && Size(size) < TWO31
    ensures order[k - 1] in db.tasks && order[k] in db.tasks
    ensures db.tasks[order[k - 1]].createdAt != db.tasks[order[k]].createdAt <==>
            AlwaysTogether(Matching(db, f), size, p, k)
  {
    assert order[k - 1] in Matching(db, f) && order[k] in Matching(db, f);
    AlwaysIff(Matching(db, f), order, size, p, k);
    Ranking.CutIff(Matching(db, f), order, k);
  }
}
