/** Paged queries: a strict total order, pages that partition it, and the range shown for a page. */
module Pagination {
  /** A row as the ORDER BY clause sees it: the value of the chosen column and the unique id. */
  datatype Row = Row(key: int, id: nat)

  datatype Direction = Asc | Desc

  datatype Meta = Meta(page: nat, limit: nat, total: nat, totalPages: nat)

  datatype Paginated = Paginated(data: seq<Row>, meta: Meta)

  /** ORDER BY key dir, id dir. */
  predicate Before(a: Row, b: Row, dir: Direction) {
    match dir
    case Asc => a.key < b.key || (a.key == b.key && a.id < b.id)
    case Desc => a.key > b.key || (a.key == b.key && a.id > b.id)
  }

  predicate Sorted(rows: seq<Row>, dir: Direction) {
    forall i, j :: 0 <= i < j < |rows| ==> Before(rows[i], rows[j], dir)
  }

  function Rows(s: seq<Row>): set<Row> {
    set i | 0 <= i < |s| :: s[i]
  }

  function CeilDiv(total: nat, limit: nat): nat
    requires limit >= 1
  {
    if total % limit == 0 then total / limit else total / limit + 1
  }

  function Min(a: nat, b: nat): nat {
    if a <= b then a else b
  }

  /** LIMIT and OFFSET. */
  function SkipTake(rows: seq<Row>, skip: nat, take: nat): seq<Row> {
    rows[Min(skip, |rows|)..Min(skip + take, |rows|)]
  }

  function Paginate(ordered: seq<Row>, page: nat, limit: nat): Paginated
    requires page >= 1 && limit >= 1
  {
    Paginated(SkipTake(ordered, (page - 1) * limit, limit), Meta(page, limit, |ordered|, CeilDiv(|ordered|, limit)))
  }

  // ---- The order ----

  /** On rows with distinct ids the order is strict and total. */
  lemma BeforeIsStrictTotal(a: Row, b: Row, c: Row, dir: Direction)
    ensures !Before(a, a, dir)
    ensures Before(a, b, dir) && Before(b, c, dir) ==> Before(a, c, dir)
    ensures a.id != b.id ==> Before(a, b, dir) != Before(b, a, dir)
  {
  }

  /** Ascending, keys never fall and equal keys go by id upwards; descending, the other way round. */
  lemma SortedByKey(rows: seq<Row>, dir: Direction)
    ensures Sorted(rows, dir) <==>
              forall i, j :: 0 <= i < j < |rows| ==>
                var a, b := rows[i], rows[j];
                if dir == Asc then a.key <= b.key && (a.key == b.key ==> a.id < b.id)
                else a.key >= b.key && (a.key == b.key ==> a.id > b.id)
  {
  }

  lemma SortedTail(rows: seq<Row>, dir: Direction)
    requires |rows| > 0 && Sorted(rows, dir)
    ensures Sorted(rows[1..], dir) && rows[0] !in Rows(rows[1..])
    ensures Rows(rows) == {rows[0]} + Rows(rows[1..])
  {
  }

  lemma NoRows(rows: seq<Row>)
    ensures rows == [] <==> Rows(rows) == {}
  {
    assert rows != [] ==> rows[0] in Rows(rows);
  }

  lemma FirstIsLeast(rows: seq<Row>, r: Row, dir: Direction)
    requires Sorted(rows, dir) && r in Rows(rows)
    ensures r == rows[0] || Before(rows[0], r, dir)
  {
  }

  /** So the sorted list of a result set is unique: the database has no choice of order. */
  lemma {:induction false} SortedIsUnique(a: seq<Row>, b: seq<Row>, dir: Direction)
    requires Sorted(a, dir) && Sorted(b, dir) && Rows(a) == Rows(b)
    ensures a == b
    decreases |a|
  {
    NoRows(a);
    NoRows(b);
    if a != [] {
      assert a[0] in Rows(b);
      FirstIsLeast(a, b[0], dir);
      FirstIsLeast(b, a[0], dir);
      SortedTail(a, dir);
      SortedTail(b, dir);
      assert Rows(a[1..]) == Rows(a) - {a[0]};
      SortedIsUnique(a[1..], b[1..], dir);
      assert a == [a[0]] + a[1..] && b == [b[0]] + b[1..];
    }
  }

  function Insert(row: Row, rows: seq<Row>, dir: Direction): seq<Row> {
    if rows == [] || Before(row, rows[0], dir) then [row] + rows else [rows[0]] + Insert(row, rows[1..], dir)
  }

  /** An ordering of any table exists, whatever order its rows are stored in. */
  function Ordered(table: seq<Row>, dir: Direction): seq<Row> {
    if table == [] then [] else Insert(table[0], Ordered(table[1..], dir), dir)
  }

  lemma {:induction false} InsertSorts(row: Row, rows: seq<Row>, dir: Direction)
    requires Sorted(rows, dir) && forall r :: r in rows ==> r.id != row.id
    ensures Sorted(Insert(row, rows, dir), dir) && multiset(Insert(row, rows, dir)) == multiset(rows) + multiset{row}
  {
    var result := Insert(row, rows, dir);
    if rows == [] {
    } else if Before(row, rows[0], dir) {
      forall j | 0 <= j < |rows| ensures Before(row, rows[j], dir) {
        assert j == 0 || Before(rows[0], rows[j], dir);
      }
    } else {
      assert rows == [rows[0]] + rows[1..];
      InsertSorts(row, rows[1..], dir);
      var rest := Insert(row, rows[1..], dir);
      forall j | 0 <= j < |rest| ensures Before(rows[0], rest[j], dir) {
        assert rest[j] in multiset(rest);
        assert rest[j] == row || rest[j] in rows[1..];
        assert rows[0] in rows;
      }
    }
  }

  lemma {:induction false} OrderedSorts(table: seq<Row>, dir: Direction)
    requires forall i, j :: 0 <= i < j < |table| ==> table[i].id != table[j].id
    ensures Sorted(Ordered(table, dir), dir) && multiset(Ordered(table, dir)) == multiset(table)
  {
    if table != [] {
      var rest := Ordered(table[1..], dir);
      OrderedSorts(table[1..], dir);
      assert table == [table[0]] + table[1..];
      forall r | r in rest ensures r.id != table[0].id {
        assert r in multiset(table[1..]);
      }
      InsertSorts(table[0], rest, dir);
    }
  }

  // ---- The pages ----

  /** Pages 1 to n, one after the other. */
  function Pages(ordered: seq<Row>, limit: nat, n: nat): seq<Row>
    requires limit >= 1
  {
    if n == 0 then [] else Pages(ordered, limit, n - 1) + Paginate(ordered, n, limit).data
  }

  lemma TakeMore(ordered: seq<Row>, m: nat, limit: nat)
    ensures ordered[..Min(m, |ordered|)] + SkipTake(ordered, m, limit) == ordered[..Min(m + limit, |ordered|)]
  {
  }

  lemma {:induction false} PagesArePrefixes(ordered: seq<Row>, limit: nat, n: nat)
    requires limit >= 1
    ensures Pages(ordered, limit, n) == ordered[..Min(n * limit, |ordered|)]
  {
    if n > 0 {
      PagesArePrefixes(ordered, limit, n - 1);
      assert n * limit == (n - 1) * limit + limit;
      TakeMore(ordered, (n - 1) * limit, limit);
      hide Min, SkipTake;
    } else {
      assert ordered[..0] == [];
    }
  }

  lemma CeilDivCovers(total: nat, limit: nat)
    requires limit >= 1
    ensures CeilDiv(total, limit) * limit >= total
    ensures total > 0 ==> CeilDiv(total, limit) >= 1 && (CeilDiv(total, limit) - 1) * limit < total
  {
  }

  lemma PageIsInside(total: nat, page: nat, limit: nat)
    requires limit >= 1 && page >= 1
    ensures page <= CeilDiv(total, limit) <==> (page - 1) * limit < total
  {
  }

  /** Pages 1 to totalPages concatenate to exactly the sorted list: nothing skipped, nothing twice. */
  lemma PagesPartition(ordered: seq<Row>, limit: nat)
    requires limit >= 1
    ensures Pages(ordered, limit, Paginate(ordered, 1, limit).meta.totalPages) == ordered
  {
    var n := CeilDiv(|ordered|, limit);
    CeilDivCovers(|ordered|, limit);
    PagesArePrefixes(ordered, limit, n);
    assert ordered[..|ordered|] == ordered;
  }

  /** Reading the pages of a table in any stored order gives the same rows in the same order. */
  lemma PagingIgnoresStorage(table: seq<Row>, stored: seq<Row>, limit: nat, dir: Direction)
    requires limit >= 1 && multiset(table) == multiset(stored)
    requires forall i, j :: 0 <= i < j < |table| ==> table[i].id != table[j].id
    requires forall i, j :: 0 <= i < j < |stored| ==> stored[i].id != stored[j].id
    ensures var pages := Pages(Ordered(table, dir), limit, CeilDiv(|table|, limit));
            && pages == Pages(Ordered(stored, dir), limit, CeilDiv(|stored|, limit))
            && Sorted(pages, dir) && multiset(pages) == multiset(table)
  {
    OrderedSorts(table, dir);
    OrderedSorts(stored, dir);
    SameRows(Ordered(table, dir), Ordered(stored, dir));
    SortedIsUnique(Ordered(table, dir), Ordered(stored, dir), dir);
    assert |table| == |multiset(table)| == |multiset(Ordered(table, dir))| == |Ordered(table, dir)|;
    assert |stored| == |multiset(stored)|;
    PagesPartition(Ordered(table, dir), limit);
  }

  lemma SameRows(a: seq<Row>, b: seq<Row>)
    requires multiset(a) == multiset(b)
    ensures Rows(a) == Rows(b)
  {
    forall r: Row ensures r in Rows(a) <==> r in multiset(a) {}
    forall r: Row ensures r in Rows(b) <==> r in multiset(b) {}
  }

  // ---- What the pager shows ----

  function RangeStart(m: Meta): nat
    requires m.page >= 1
  {
    if m.total == 0 then 0 else (m.page - 1) * m.limit + 1
  }

  function RangeEnd(m: Meta): nat {
    Min(m.page * m.limit, m.total)
  }

  predicate HasPrevious(m: Meta) {
    m.page > 1
  }

  predicate HasNext(m: Meta) {
    m.page < m.totalPages
  }

  /** A page says which it is, how many rows there are, and how many pages they fill; it holds `limit`
      rows, or what is left after the pages before it. */
  lemma PageOutcome(ordered: seq<Row>, page: nat, limit: nat)
    requires page >= 1 && limit >= 1
    ensures var p, n := Paginate(ordered, page, limit), |ordered|;
            && p.meta.page == page && p.meta.limit == limit && p.meta.total == n
            && (n == 0 <==> p.meta.totalPages == 0)
            && (n > 0 ==> (p.meta.totalPages - 1) * limit < n <= p.meta.totalPages * limit)
            && |p.data| == (if n <= (page - 1) * limit then 0
                            else if n - (page - 1) * limit < limit then n - (page - 1) * limit else limit)
            && forall i :: 0 <= i < |p.data| ==> p.data[i] == ordered[(page - 1) * limit + i]
  {
    CeilDivCovers(|ordered|, limit);
  }

  /** Of a non-empty list, the range shown counts the page's rows on every page up to totalPages, and
      beyond it only when the last page is full and the page is the one right after it. */
  lemma RangeCountsRows(ordered: seq<Row>, page: nat, limit: nat)
    requires page >= 1 && limit >= 1 && ordered != []
    ensures var p := Paginate(ordered, page, limit);
            |p.data| == RangeEnd(p.meta) - RangeStart(p.meta) + 1 <==>
              page <= p.meta.totalPages || (page - 1) * limit == |ordered|
  {
    PageIsInside(|ordered|, page, limit);
    assert page * limit == (page - 1) * limit + limit;
  }

  /** One row, one per page, page 3: the page is empty and the range shown is 3 to 1. */
  lemma RangePastTheEnd(row: Row)
    ensures var p := Paginate([row], 3, 1);
            && p.meta.totalPages == 1 && p.data == [] && RangeStart(p.meta) == 3 && RangeEnd(p.meta) == 1
            && |p.data| != RangeEnd(p.meta) - RangeStart(p.meta) + 1
  {
    assert |[row]| == 1;
  }

  /** On such a page the range names exactly the positions of its rows in the whole list, and each
      button is enabled exactly when there are rows on its side. */
  lemma RangeNamesRows(ordered: seq<Row>, page: nat, limit: nat)
    requires page >= 1 && limit >= 1 && page <= CeilDiv(|ordered|, limit)
    ensures var p := Paginate(ordered, page, limit);
            && 1 <= RangeStart(p.meta) <= RangeEnd(p.meta) <= |ordered|
            && p.data == ordered[RangeStart(p.meta) - 1..RangeEnd(p.meta)]
            && (HasNext(p.meta) <==> RangeEnd(p.meta) < |ordered|)
            && (HasPrevious(p.meta) <==> RangeStart(p.meta) > 1)
  {
    PageIsInside(|ordered|, page, limit);
    PageIsInside(|ordered|, page + 1, limit);
    assert page * limit == (page - 1) * limit + limit;
  }
}
