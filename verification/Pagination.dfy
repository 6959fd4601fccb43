/**
 Keyset pagination: rows ordered by (created_at, id) descending, one page at a time, the cursor being the
 key of the last row of the page before. `keep` stands for the WHERE clause of a listing (project, model,
 element type, search text, membership).
 */
module Pagination {
  import opened Wrappers

  /** What a row holds besides its key. */
  type Columns(!new)

  /** `id` is the 128-bit value of the UUID, which is how Postgres orders UUIDs. */
  datatype Key = Key(createdAt: int, id: nat)

  datatype Row = Row(key: Key, columns: Columns)

  predicate Less(a: Key, b: Key) {
    a.createdAt < b.createdAt || (a.createdAt == b.createdAt && a.id < b.id)
  }

  predicate Below(k: Key, cursor: Option<Key>) {
    cursor.Some? ==> Less(k, cursor.value)
  }

  /** The rows the WHERE clauses leave. */
  function Matching(table: seq<Row>, keep: Row -> bool, cursor: Option<Key>): seq<Row> {
    if table == [] then []
    else
      var rest := Matching(table[1..], keep, cursor);
      if keep(table[0]) && Below(table[0].key, cursor) then [table[0]] + rest else rest
  }

  function Insert(r: Row, sorted: seq<Row>): seq<Row> {
    if sorted == [] || Less(sorted[0].key, r.key) then [r] + sorted else [sorted[0]] + Insert(r, sorted[1..])
  }

  /** ORDER BY created_at DESC, id DESC */
  function Sorted(rows: seq<Row>): seq<Row> {
    if rows == [] then [] else Insert(rows[0], Sorted(rows[1..]))
  }

  function Take(rows: seq<Row>, n: nat): seq<Row> {
    if |rows| <= n then rows else rows[..n]
  }

  datatype Page = Page(rows: seq<Row>, next: Option<Key>)

  function ListPage(table: seq<Row>, keep: Row -> bool, cursor: Option<Key>, limit: nat): Page {
    var fetched := Take(Sorted(Matching(table, keep, cursor)), limit + 1);
    var rows := Take(fetched, limit);
    Page(rows, if |fetched| > limit && rows != [] then Some(rows[|rows| - 1].key) else None)
  }

  // ---- the sorted query ----

  /** The key is unique because it ends in the primary key. */
  ghost predicate UniqueKeys(table: seq<Row>) {
    forall i, j | 0 <= i < j < |table| :: table[i].key != table[j].key
  }

  ghost predicate Descending(rows: seq<Row>) {
    forall i, j | 0 <= i < j < |rows| :: Less(rows[j].key, rows[i].key)
  }

  lemma {:induction false} MatchingRows(table: seq<Row>, keep: Row -> bool, cursor: Option<Key>)
    requires UniqueKeys(table)
    ensures UniqueKeys(Matching(table, keep, cursor))
    ensures forall r: Row :: r in Matching(table, keep, cursor) <==> r in table && keep(r) && Below(r.key, cursor)
  {
    if table != [] {
      MatchingRows(table[1..], keep, cursor);
      var rest := Matching(table[1..], keep, cursor);
      forall j | 0 <= j < |rest| ensures rest[j].key != table[0].key {
        var r := rest[j];
        assert r in rest;
        assert r in table[1..];
        var i :| 0 <= i < |table[1..]| && table[1..][i] == r;
        assert table[i + 1] == r;
      }
    }
  }

  lemma {:induction false} InsertRows(r: Row, sorted: seq<Row>)
    requires Descending(sorted) && forall x | x in sorted :: x.key != r.key
    ensures Descending(Insert(r, sorted))
    ensures forall x :: x in Insert(r, sorted) <==> x == r || x in sorted
    ensures |Insert(r, sorted)| == |sorted| + 1
  {
    if sorted != [] && !Less(sorted[0].key, r.key) {
      InsertRows(r, sorted[1..]);
      var rest := Insert(r, sorted[1..]);
      assert sorted[0] in sorted;
      forall j | 0 <= j < |rest| ensures Less(rest[j].key, sorted[0].key) {
        var x := rest[j];
        assert x in rest;
        if x != r {
          var i :| 0 <= i < |sorted[1..]| && sorted[1..][i] == x;
          assert sorted[i + 1] == x;
        }
      }
    } else {
      forall j | 0 <= j < |sorted| ensures Less(sorted[j].key, r.key) {}
    }
  }

  lemma {:induction false} SortedRows(rows: seq<Row>)
    requires UniqueKeys(rows)
    ensures Descending(Sorted(rows))
    ensures forall x :: x in Sorted(rows) <==> x in rows
    ensures |Sorted(rows)| == |rows|
  {
    if rows != [] {
      SortedRows(rows[1..]);
      forall x | x in Sorted(rows[1..]) ensures x.key != rows[0].key {
        var i :| 0 <= i < |rows[1..]| && rows[1..][i] == x;
        assert rows[i + 1] == x;
      }
      InsertRows(rows[0], Sorted(rows[1..]));
    }
  }

  /** The one full query of a listing, without a limit. */
  function FullQuery(table: seq<Row>, keep: Row -> bool): seq<Row> {
    Sorted(Matching(table, keep, None))
  }

  /** ORDER BY created_at DESC, id DESC */
  predicate NewerFirst(a: Key, b: Key) {
    a.createdAt > b.createdAt || (a.createdAt == b.createdAt && a.id > b.id)
  }

  lemma QueryRows(table: seq<Row>, keep: Row -> bool, cursor: Option<Key>)
    requires UniqueKeys(table)
    ensures var q := Sorted(Matching(table, keep, cursor));
            && (forall r :: r in q <==> r in table && keep(r) && Below(r.key, cursor))
            && Descending(q)
            && forall i, j | 0 <= i < j < |q| :: NewerFirst(q[i].key, q[j].key)
  {
    MatchingRows(table, keep, cursor);
    SortedRows(Matching(table, keep, cursor));
  }

  lemma FirstIn(rows: seq<Row>)
    ensures rows != [] ==> rows[0] in rows
  {
  }

  /** Two descending lists of the same rows are the same list. */
  lemma {:induction false} DescendingUnique(a: seq<Row>, b: seq<Row>)
    requires Descending(a) && Descending(b) && forall r :: r in a <==> r in b
    ensures a == b
  {
    if a == [] {
      FirstIn(b);
    } else {
      assert a[0] in a;
      assert b[0] in b;
      assert a[0] == b[0] by {
        var i :| 0 <= i < |b| && b[i] == a[0];
        var j :| 0 <= j < |a| && a[j] == b[0];
      }
      forall r ensures r in a[1..] <==> r in b[1..] {
        assert r in a[1..] ==> r in a && r.key != a[0].key;
        assert r in b[1..] ==> r in b && r.key != b[0].key;
        assert r in a ==> r == a[0] || r in a[1..];
        assert r in b ==> r == b[0] || r in b[1..];
      }
      DescendingUnique(a[1..], b[1..]);
    }
  }

  /** The rows below the key of the last row shown are the rest of the query. */
  lemma CutAt(table: seq<Row>, keep: Row -> bool, cursor: Option<Key>, n: nat)
    requires UniqueKeys(table) && 0 < n <= |Sorted(Matching(table, keep, cursor))|
    ensures var q := Sorted(Matching(table, keep, cursor));
            Below(q[n - 1].key, cursor) && q[n..] == Sorted(Matching(table, keep, Some(q[n - 1].key)))
  {
    hide Sorted, Matching;
    var q := Sorted(Matching(table, keep, cursor));
    var k := q[n - 1].key;
    var rest := Sorted(Matching(table, keep, Some(k)));
    QueryRows(table, keep, cursor);
    QueryRows(table, keep, Some(k));
    assert q[n - 1] in q;
    forall r ensures r in q[n..] <==> r in rest {
      if r in q[n..] {
        var i :| 0 <= i < |q[n..]| && q[n..][i] == r;
        assert r == q[n + i] && r in q;
      }
      if r in rest {
        assert r in q;
        var i :| 0 <= i < |q| && q[i] == r;
        assert i >= n;
        assert r == q[n..][i - n];
      }
    }
    DescendingUnique(q[n..], rest);
  }

  /** A page is the head of what lies below its cursor; its own cursor cuts off exactly the rest. */
  lemma PageCuts(table: seq<Row>, keep: Row -> bool, cursor: Option<Key>, limit: nat)
    requires UniqueKeys(table) && limit >= 1
    ensures var q := Sorted(Matching(table, keep, cursor));
            var p := ListPage(table, keep, cursor, limit);
            && (p.next.None? <==> |q| <= limit)
            && (p.next.None? ==> p.rows == q)
            && (p.next.Some? ==>
              && |p.rows| == limit && p.rows == q[..limit]
              && p.next.value == q[limit - 1].key
              && Below(p.next.value, cursor)
              && q[limit..] == Sorted(Matching(table, keep, p.next)))
  {
    hide Sorted, Matching;
    if |Sorted(Matching(table, keep, cursor))| > limit { CutAt(table, keep, cursor, limit); }
  }

  // ---- walking a table that does not change ----

  function Walk(table: seq<Row>, keep: Row -> bool, cursor: Option<Key>, limit: nat): seq<Page>
    requires UniqueKeys(table) && limit >= 1
    decreases |Sorted(Matching(table, keep, cursor))|
  {
    var p := ListPage(table, keep, cursor, limit);
    PageCuts(table, keep, cursor, limit);
    if p.next.None? then [p] else [p] + Walk(table, keep, p.next, limit)
  }

  function Rows(pages: seq<Page>): seq<Row> {
    if pages == [] then [] else pages[0].rows + Rows(pages[1..])
  }

  /** `pages` is n / limit rounded up, and one when there is nothing to show. */
  predicate PageCount(n: nat, limit: nat, pages: int) {
    if n == 0 then pages == 1 else pages >= 1 && (pages - 1) * limit < n <= pages * limit
  }

  lemma {:induction false} WalkFrom(table: seq<Row>, keep: Row -> bool, cursor: Option<Key>, limit: nat)
    requires UniqueKeys(table) && limit >= 1
    ensures var q, pages := Sorted(Matching(table, keep, cursor)), Walk(table, keep, cursor, limit);
            && pages != [] && pages[|pages| - 1].next.None?
            && (forall i | 0 <= i < |pages| - 1 :: pages[i].next.Some? && |pages[i].rows| == limit)
            && Rows(pages) == q
            && PageCount(|q|, limit, |pages|)
    decreases |Sorted(Matching(table, keep, cursor))|
  {
    hide Sorted, Matching, ListPage, UniqueKeys, PageCount;
    var q, p := Sorted(Matching(table, keep, cursor)), ListPage(table, keep, cursor, limit);
    PageCuts(table, keep, cursor, limit);
    if p.next.None? {
      assert Rows([p]) == p.rows + Rows([p][1..]);
      assert Rows([p]) == p.rows;
      OnePage(|q|, limit);
    } else {
      WalkFrom(table, keep, p.next, limit);
      var pages := Walk(table, keep, p.next, limit);
      assert Walk(table, keep, cursor, limit) == [p] + pages;
      assert ([p] + pages)[1..] == pages;
      assert q == q[..limit] + q[limit..];
      OnePageMore(|q|, limit, |pages|);
    }
  }

  lemma OnePage(n: nat, limit: nat)
    requires n <= limit && limit >= 1
    ensures PageCount(n, limit, 1)
  {
  }

  lemma OnePageMore(n: nat, limit: nat, pages: nat)
    requires 0 < limit < n && PageCount(n - limit, limit, pages)
    ensures PageCount(n, limit, pages + 1)
  {
  }

  /**
   On a table that does not change, following the cursors gives, page after page, exactly the full
   sorted query, in ceil(n / limit) pages (one for an empty listing), and ends with a null cursor.
   */
  lemma WalkIsFullQuery(table: seq<Row>, keep: Row -> bool, limit: nat)
    requires UniqueKeys(table) && limit >= 1
    ensures var pages, all := Walk(table, keep, None, limit), FullQuery(table, keep);
            && Rows(pages) == all
            && pages[|pages| - 1].next.None?
            && PageCount(|all|, limit, |pages|)
  {
    WalkFrom(table, keep, None, limit);
  }

  // ---- walking a table that changes between the pages ----

  /** Page i was read from tables[i], with the cursor that page i - 1 returned. */
  ghost predicate IsWalk(tables: seq<seq<Row>>, keep: Row -> bool, limit: nat, pages: seq<Page>) {
    && |tables| == |pages|
    && (forall i | 0 <= i < |tables| :: UniqueKeys(tables[i]))
    && (forall i | 0 <= i < |pages| :: pages[i] == ListPage(tables[i], keep, CursorAt(pages, i), limit))
    && (forall i | 0 <= i < |pages| - 1 :: pages[i].next.Some?)
  }

  function CursorAt(pages: seq<Page>, i: nat): Option<Key>
    requires i <= |pages|
  {
    if i == 0 then None else pages[i - 1].next
  }

  lemma PageRows(tables: seq<seq<Row>>, keep: Row -> bool, limit: nat, pages: seq<Page>, i: nat)
    requires IsWalk(tables, keep, limit, pages) && limit >= 1 && i < |pages|
    ensures Descending(pages[i].rows)
    ensures forall r | r in pages[i].rows :: r in tables[i] && keep(r) && Below(r.key, CursorAt(pages, i))
    ensures pages[i].next.Some? ==> Below(pages[i].next.value, CursorAt(pages, i))
    ensures pages[i].next.Some? ==> forall r | r in pages[i].rows :: !Less(r.key, pages[i].next.value)
    ensures forall r | r in tables[i] && keep(r) && Below(r.key, CursorAt(pages, i)) ::
              r in pages[i].rows || (pages[i].next.Some? && Less(r.key, pages[i].next.value))
  {
    var cursor := CursorAt(pages, i);
    var q := Sorted(Matching(tables[i], keep, cursor));
    QueryRows(tables[i], keep, cursor);
    PageCuts(tables[i], keep, cursor, limit);
    hide IsWalk, Sorted, Matching, ListPage, UniqueKeys, Descending, CursorAt, Less;
    if pages[i].next.Some? { HeadOfQuery(q, limit); }
  }

  /** The first n rows of a query are those not below the n-th. */
  lemma HeadOfQuery(q: seq<Row>, n: nat)
    requires Descending(q) && 0 < n <= |q|
    ensures Descending(q[..n])
    ensures forall r | r in q[..n] :: r in q && !Less(r.key, q[n - 1].key)
    ensures forall r | r in q :: r in q[..n] || Less(r.key, q[n - 1].key)
  {
    forall r | r in q[..n] ensures r in q && !Less(r.key, q[n - 1].key) {
      var j :| 0 <= j < n && q[j] == r;
    }
    forall r | r in q ensures r in q[..n] || Less(r.key, q[n - 1].key) {
      var j :| 0 <= j < |q| && q[j] == r;
      if j < n { assert r == q[..n][j]; }
    }
  }

  /** On a table that does not change, what is left of a finished walk is the walk from there on. */
  lemma {:induction false} FixedWalk(tables: seq<seq<Row>>, table: seq<Row>, keep: Row -> bool, limit: nat,
                                     pages: seq<Page>, i: nat)
    requires IsWalk(tables, keep, limit, pages) && limit >= 1 && UniqueKeys(table)
    requires forall j | 0 <= j < |tables| :: tables[j] == table
    requires i < |pages| && pages[|pages| - 1].next.None?
    ensures pages[i..] == Walk(table, keep, CursorAt(pages, i), limit)
    decreases |pages| - i
  {
    hide ListPage, UniqueKeys;
    assert pages[i] == ListPage(tables[i], keep, CursorAt(pages, i), limit);
    if i < |pages| - 1 { FixedWalk(tables, table, keep, limit, pages, i + 1); }
    assert pages[i..] == [pages[i]] + pages[i + 1..];
  }

  /** Later cursors lie lower, so a later page lies entirely below an earlier cursor. */
  lemma {:induction false} CursorsDescend(tables: seq<seq<Row>>, keep: Row -> bool, limit: nat,
                                                   pages: seq<Page>, i: nat, j: nat)
    requires IsWalk(tables, keep, limit, pages) && limit >= 1 && i < j < |pages|
    ensures pages[i].next.Some?
    ensures forall r | r in pages[j].rows :: Less(r.key, pages[i].next.value)
    ensures pages[j].next.Some? ==> Less(pages[j].next.value, pages[i].next.value)
    decreases j - i
  {
    hide IsWalk;
    NotLast(tables, keep, limit, pages, i);
    PageRows(tables, keep, limit, pages, j);
    NotLast(tables, keep, limit, pages, j - 1);
    if i + 1 < j { CursorsDescend(tables, keep, limit, pages, i, j - 1); }
  }

  /** While rows come and go between the pages, no page repeats a row of an earlier page, or one of its own. */
  lemma NoRowTwice(tables: seq<seq<Row>>, keep: Row -> bool, limit: nat, pages: seq<Page>,
                            i: nat, a: nat, j: nat, b: nat)
    requires IsWalk(tables, keep, limit, pages) && limit >= 1
    requires i < |pages| && a < |pages[i].rows| && j < |pages| && b < |pages[j].rows|
    requires i < j || (i == j && a < b)
    ensures Less(pages[j].rows[b].key, pages[i].rows[a].key)
    ensures pages[j].rows[b].key != pages[i].rows[a].key
  {
    hide IsWalk;
    PageRows(tables, keep, limit, pages, i);
    if i < j {
      NotLast(tables, keep, limit, pages, i);
      CursorsDescend(tables, keep, limit, pages, i, j);
      assert pages[i].rows[a] in pages[i].rows && pages[j].rows[b] in pages[j].rows;
    }
  }

  lemma NotLast(tables: seq<seq<Row>>, keep: Row -> bool, limit: nat, pages: seq<Page>, i: nat)
    requires IsWalk(tables, keep, limit, pages) && i < |pages| - 1
    ensures pages[i].next.Some?
  {
  }

  predicate Present(table: seq<Row>, keep: Row -> bool, k: Key) {
    exists i | 0 <= i < |table| :: table[i].key == k && keep(table[i])
  }

  predicate HasKey(rows: seq<Row>, k: Key) {
    exists a | 0 <= a < |rows| :: rows[a].key == k
  }

  lemma OnPageOrBelow(tables: seq<seq<Row>>, keep: Row -> bool, limit: nat, pages: seq<Page>, k: Key, i: nat)
    requires IsWalk(tables, keep, limit, pages) && limit >= 1 && i < |pages|
    requires Present(tables[i], keep, k) && Below(k, CursorAt(pages, i))
    ensures HasKey(pages[i].rows, k) || (pages[i].next.Some? && Less(k, pages[i].next.value))
  {
    PageRows(tables, keep, limit, pages, i);
    hide IsWalk, CursorAt, Descending, Below, Less;
    var n :| 0 <= n < |tables[i]| && tables[i][n].key == k && keep(tables[i][n]);
    var r := tables[i][n];
    if r in pages[i].rows {
      var a :| 0 <= a < |pages[i].rows| && pages[i].rows[a] == r;
    }
  }

  predicate FoundBefore(pages: seq<Page>, k: Key, j: nat)
    requires j <= |pages|
  {
    exists i | 0 <= i < j :: HasKey(pages[i].rows, k)
  }

  predicate StillAhead(pages: seq<Page>, k: Key, j: nat)
    requires j <= |pages|
  {
    (j > 0 ==> pages[j - 1].next.Some?) && Below(k, CursorAt(pages, j))
  }

  lemma OnePageOn(tables: seq<seq<Row>>, keep: Row -> bool, limit: nat, pages: seq<Page>, k: Key, j: nat)
    requires IsWalk(tables, keep, limit, pages) && limit >= 1 && j < |pages| && Present(tables[j], keep, k)
    requires StillAhead(pages, k, j)
    ensures FoundBefore(pages, k, j + 1) || StillAhead(pages, k, j + 1)
  {
    OnPageOrBelow(tables, keep, limit, pages, k, j);
    hide IsWalk, Present, HasKey;
  }

  /** A row that matched at every page read is either on one of the first j pages or below their last cursor. */
  lemma {:induction false} NotSkipped(tables: seq<seq<Row>>, keep: Row -> bool, limit: nat,
                                      pages: seq<Page>, k: Key, j: nat)
    requires IsWalk(tables, keep, limit, pages) && limit >= 1 && j <= |pages|
    requires forall i | 0 <= i < |tables| :: Present(tables[i], keep, k)
    ensures FoundBefore(pages, k, j) || StillAhead(pages, k, j)
    decreases j
  {
    assert |tables| == |pages|;
    hide IsWalk, Present, HasKey;
    if j > 0 {
      NotSkipped(tables, keep, limit, pages, k, j - 1);
      if !FoundBefore(pages, k, j - 1) {
        hide StillAhead, FoundBefore;
        OnePageOn(tables, keep, limit, pages, k, j - 1);
      }
    }
  }

  /**
   A walk that has ended with a null cursor has returned every row that matched throughout, whatever was
   inserted or deleted in between.
   */
  lemma NothingMissed(tables: seq<seq<Row>>, keep: Row -> bool, limit: nat, pages: seq<Page>, k: Key)
    requires IsWalk(tables, keep, limit, pages) && limit >= 1
    requires pages != [] && pages[|pages| - 1].next.None?
    requires forall i | 0 <= i < |tables| :: Present(tables[i], keep, k)
    ensures exists i | 0 <= i < |pages| :: HasKey(pages[i].rows, k)
  {
    NotSkipped(tables, keep, limit, pages, k, |pages|);
    hide IsWalk, HasKey, Present;
  }
}
