/** Keyset paging of the impersonation history: the cursor codec, one page, and whole walks. */
module Paging {
  import opened Common

  datatype Row = Row(startedAt: int, id: string)

  /**
   How instants are written and read back in a cursor: `toISOString` and `Date.parse`. What is used of
   them is that every instant written reads back as itself and contains no bar.
   */
  datatype Clock = Clock(write: int -> string, parse: string -> Option<int>)

  ghost predicate ValidClock(c: Clock) {
    forall t: int :: c.write(t) != "" && '|' !in c.write(t) && c.parse(c.write(t)) == Some(t)
  }

  // ---- the order of the rows ----

  /** The order of ids: that of their characters. */
  predicate IdLess(a: string, b: string)
    decreases |a|
  {
    if b == "" then false
    else if a == "" then true
    else a[0] < b[0] || (a[0] == b[0] && IdLess(a[1..], b[1..]))
  }

  /** Row `a` comes after row `b` in a listing: it started earlier, or at once with a smaller id. */
  predicate After(a: Row, b: Row) {
    a.startedAt < b.startedAt || (a.startedAt == b.startedAt && IdLess(a.id, b.id))
  }

  lemma {:induction false} IdOrder(a: string, b: string, c: string)
    ensures !IdLess(a, a)
    ensures a != b ==> IdLess(a, b) || IdLess(b, a)
    ensures IdLess(a, b) && IdLess(b, c) ==> IdLess(a, c)
    decreases |a| + |b| + |c|
  {
    if a != "" {
      IdOrder(a[1..], if b == "" then b else b[1..], if c == "" then c else c[1..]);
    }
    if a != "" && b != "" && a != b && a[0] == b[0] {
      assert a == [a[0]] + a[1..] && b == [b[0]] + b[1..];
    }
  }

  lemma AfterOrder(a: Row, b: Row, c: Row)
    ensures !After(a, a)
    ensures a != b ==> After(a, b) || After(b, a)
    ensures After(a, b) && After(b, c) ==> After(a, c)
  {
    IdOrder(a.id, b.id, c.id);
  }

  ghost predicate Descending(rows: seq<Row>) {
    forall i, j :: 0 <= i < j < |rows| ==> After(rows[j], rows[i])
  }

  /** Where two ids first differ the smaller has the smaller character, or has come to its end. */
  lemma {:induction false} IdLessIs(a: string, b: string)
    ensures IdLess(a, b) <==>
      exists k :: 0 <= k <= |a| && k < |b| && a[..k] == b[..k] && (k == |a| || a[k] < b[k])
    decreases |a|
  {
    if a == "" && b != "" {
      assert a[..0] == b[..0];
    } else if a != "" && b != "" {
      IdLessIs(a[1..], b[1..]);
      if a[0] < b[0] { assert a[..0] == b[..0]; }
      if k :| 0 <= k <= |a| && k < |b| && a[..k] == b[..k] && (k == |a| || a[k] < b[k]) {
        if k > 0 {
          assert a[..k][0] == a[0] && b[..k][0] == b[0];
          assert a[1..][..k - 1] == a[..k][1..] == b[..k][1..] == b[1..][..k - 1];
        }
      }
      if a[0] == b[0] {
        if j :| 0 <= j <= |a[1..]| && j < |b[1..]| && a[1..][..j] == b[1..][..j]
                && (j == |a[1..]| || a[1..][j] < b[1..][j]) {
          assert a[..j + 1] == [a[0]] + a[1..][..j] == [b[0]] + b[1..][..j] == b[..j + 1];
        }
      }
    }
  }

  /** Newest first, and of those that started at once the greater id first. */
  ghost predicate NewestFirst(rows: seq<Row>) {
    forall i, j :: 0 <= i < j < |rows| ==>
      || rows[i].startedAt > rows[j].startedAt
      || (rows[i].startedAt == rows[j].startedAt && IdLess(rows[j].id, rows[i].id))
  }

  lemma DescendingIsNewestFirst(rows: seq<Row>)
    ensures Descending(rows) <==> NewestFirst(rows)
  {
    if NewestFirst(rows) {
      forall i, j | 0 <= i < j < |rows| ensures After(rows[j], rows[i]) {}
    }
    if Descending(rows) {
      forall i, j | 0 <= i < j < |rows|
        ensures rows[i].startedAt > rows[j].startedAt
                || (rows[i].startedAt == rows[j].startedAt && IdLess(rows[j].id, rows[i].id)) {
        assert After(rows[j], rows[i]);
      }
    }
  }

  // ---- the cursor ----

  /** The position of the first bar, or the length when there is none. */
  function FirstBar(s: string): (i: nat)
    ensures i <= |s| && '|' !in s[..i] && (i < |s| ==> s[i] == '|')
  {
    if s == "" || s[0] == '|' then 0 else
      var i := FirstBar(s[1..]);
      assert s[..i + 1] == [s[0]] + s[1..][..i];
      i + 1
  }

  function Encode(c: Clock, r: Row): string {
    c.write(r.startedAt) + "|" + r.id
  }

  /** The first two parts of the text between bars; neither may be missing, empty or unreadable. */
  function Decode(c: Clock, s: string): Option<Row> {
    var i := FirstBar(s);
    if i == 0 || i == |s| then None else
      var rest := s[i + 1..];
      var id := rest[..FirstBar(rest)];
      var at := c.parse(s[..i]);
      if id == "" || at.None? then None else Some(Row(at.value, id))
  }

  lemma FirstBarIs(a: string, b: string)
    requires '|' !in a
    ensures FirstBar(a + "|" + b) == |a|
  {
    var s := a + "|" + b;
    var i := FirstBar(s);
    assert s[|a|] == '|';
    assert forall k :: 0 <= k < |a| ==> s[k] == a[k];
    forall k | 0 <= k < i ensures s[k] != '|' {
      assert s[..i][k] == s[k];
    }
  }

  /** A cursor leads back to its row if and only if the row's id is not empty and holds no bar. */
  lemma CursorRoundTrip(c: Clock, r: Row)
    requires ValidClock(c)
    ensures Decode(c, Encode(c, r)) == Some(r) <==> r.id != "" && '|' !in r.id
  {
    var at := c.write(r.startedAt);
    var s := Encode(c, r);
    FirstBarIs(at, r.id);
    assert s == at + "|" + r.id;
    assert s[..|at|] == at && s[|at| + 1..] == r.id;
    var k := FirstBar(r.id);
    if '|' !in r.id {
      assert k == |r.id|;
      assert r.id[..k] == r.id;
    } else {
      assert '|' !in r.id[..k];
    }
  }

  // ---- one page ----

  predicate Within(cursor: Option<Row>, r: Row) {
    cursor.None? || After(r, cursor.value)
  }

  /**
   `rows` answers the query for at most `n` rows of `table` beyond the cursor, in listing order: those
   it leaves out come after all it returns, and then it returns `n`.
   */
  ghost predicate IsResult(table: set<Row>, cursor: Option<Row>, n: nat, rows: seq<Row>) {
    && |rows| <= n && Descending(rows)
    && (forall r :: r in rows ==> r in table && Within(cursor, r))
    && (forall r :: r in table && Within(cursor, r) && r !in rows ==>
          |rows| == n && forall x :: x in rows ==> After(r, x))
  }

  datatype Page = Page(items: seq<Row>, nextCursor: Option<string>)

  /** `limit + 1` rows are fetched; the extra one only tells whether there is more. */
  function PageOf(c: Clock, rows: seq<Row>, limit: nat): Page {
    var hasMore := |rows| > limit;
    var items := if hasMore then rows[..limit] else rows;
    Page(items, if hasMore && items != [] then Some(Encode(c, items[|items| - 1])) else None)
  }

  /** One answer of `listImpersonationHistory`; no answer when the cursor is invalid. */
  ghost predicate Lists(c: Clock, table: set<Row>, cursor: Option<string>, limit: nat, p: Page) {
    && (cursor.Some? ==> Decode(c, cursor.value).Some?)
    && exists rows ::
         && IsResult(table, if cursor.Some? then Decode(c, cursor.value) else None, limit + 1, rows)
         && p == PageOf(c, rows, limit)
  }

  // ---- walks ----

  /** `pages` come from following the cursors to the end, while the table may change between pages. */
  ghost predicate Walk(c: Clock, cursor: Option<string>, tables: seq<set<Row>>, pages: seq<Page>,
                       limit: nat)
    decreases |pages|
  {
    && |tables| == |pages| && pages != []
    && Lists(c, tables[0], cursor, limit, pages[0])
    && if pages[0].nextCursor.Some?
       then Walk(c, pages[0].nextCursor, tables[1..], pages[1..], limit)
       else |pages| == 1
  }

  /** As `Walk`, but stopped after any number of pages, whether or not there is a next cursor. */
  ghost predicate PartWalk(c: Clock, cursor: Option<string>, tables: seq<set<Row>>, pages: seq<Page>,
                           limit: nat)
    decreases |pages|
  {
    && |tables| == |pages|
    && (pages != [] ==>
          && Lists(c, tables[0], cursor, limit, pages[0])
          && if pages[0].nextCursor.Some?
             then PartWalk(c, pages[0].nextCursor, tables[1..], pages[1..], limit)
             else |pages| == 1)
  }

  /** The walk so far has somewhere to go on to. */
  predicate Unended(pages: seq<Page>) {
    pages != [] && pages[|pages| - 1].nextCursor.Some?
  }

  /** A walk is a part of one that has come to a page without a next cursor. */
  lemma {:induction false} WalkIsEnded(c: Clock, cursor: Option<string>, tables: seq<set<Row>>,
                                       pages: seq<Page>, limit: nat)
    ensures Walk(c, cursor, tables, pages, limit)
       <==> PartWalk(c, cursor, tables, pages, limit) && pages != [] && !Unended(pages)
    decreases |pages|
  {
    hide Lists;
    if pages != [] && |tables| == |pages| {
      WalkIsEnded(c, pages[0].nextCursor, tables[1..], pages[1..], limit);
      assert |pages| > 1 ==> pages[1..][|pages| - 2] == pages[|pages| - 1];
    }
  }

  function Concat(pages: seq<Page>): seq<Row> {
    if pages == [] then [] else pages[0].items + Concat(pages[1..])
  }

  /** Ids a cursor can carry, as UUIDs are. */
  ghost predicate Named(tables: seq<set<Row>>) {
    forall k :: 0 <= k < |tables| ==> forall r :: r in tables[k] ==> r.id != "" && '|' !in r.id
  }

  ghost predicate InAll(tables: seq<set<Row>>, r: Row) {
    forall k :: 0 <= k < |tables| ==> r in tables[k]
  }

  /** Where a cursor stands. */
  function Place(c: Clock, cursor: Option<string>): Option<Row> {
    if cursor.Some? then Decode(c, cursor.value) else None
  }

  /** A page lists rows beyond its cursor; what is left lies beyond the next cursor. */
  lemma PageHolds(c: Clock, table: set<Row>, cursor: Option<string>, limit: nat, p: Page)
    requires ValidClock(c) && limit >= 1 && Named([table]) && Lists(c, table, cursor, limit, p)
    ensures Descending(p.items) && |p.items| <= limit
    ensures NewestFirst(p.items)
    ensures forall r :: r in p.items ==> r in table && Within(Place(c, cursor), r)
    ensures Place(c, cursor).Some? ==>
              var place := Place(c, cursor).value;
              forall r :: r in p.items ==>
                r.startedAt < place.startedAt || (r.startedAt == place.startedAt && IdLess(r.id, place.id))
    ensures p.nextCursor.Some? ==>
              && p.items != [] && |p.items| == limit
              && Place(c, p.nextCursor) == Some(p.items[|p.items| - 1])
    ensures forall r :: r in table && Within(Place(c, cursor), r) && r !in p.items ==>
              p.nextCursor.Some? && Within(Place(c, p.nextCursor), r)
  {
    var rows :| IsResult(table, Place(c, cursor), limit + 1, rows) && p == PageOf(c, rows, limit);
    if |rows| > limit {
      FullPageHolds(c, table, Place(c, cursor), limit, rows);
    }
    var same := PageOf(c, rows, limit);
    assert p == same;
    DescendingIsNewestFirst(p.items);
  }

  lemma FullPageHolds(c: Clock, table: set<Row>, place: Option<Row>, limit: nat, rows: seq<Row>)
    requires ValidClock(c) && limit >= 1 && Named([table])
    requires IsResult(table, place, limit + 1, rows) && |rows| == limit + 1
    ensures var p := PageOf(c, rows, limit);
            var last := rows[limit - 1];
            && p == Page(rows[..limit], Some(Encode(c, last))) && p.items[limit - 1] == last
            && Place(c, p.nextCursor) == Some(last)
            && forall r :: r in table && Within(place, r) && r !in p.items ==> After(r, last)
  {
    hide Decode, Encode, After, Within;
    var items, last := rows[..limit], rows[limit - 1];
    assert last in rows && [table][0] == table;
    CursorRoundTrip(c, last);
    forall k | 0 <= k < limit ensures rows[k] in items {
      assert items[k] == rows[k];
    }
    forall r | r in table && Within(place, r) && r !in items ensures After(r, last) {
      if r in rows {
        var i :| 0 <= i < |rows| && rows[i] == r;
      }
    }
  }

  lemma WithinFurther(place: Option<Row>, last: Row, r: Row)
    requires Within(place, last) && After(r, last)
    ensures Within(place, r)
  {
    if place.Some? { AfterOrder(r, last, place.value); }
  }

  // ---- what a walk delivers ----

  lemma {:induction false} ConcatIn(pages: seq<Page>, r: Row)
    ensures r in Concat(pages) <==> exists k :: 0 <= k < |pages| && r in pages[k].items
  {
    if pages != [] {
      var rest := pages[1..];
      ConcatIn(rest, r);
      if r in Concat(rest) {
        var k :| 0 <= k < |rest| && r in rest[k].items;
        assert r in pages[k + 1].items;
      }
      if k :| 0 <= k < |pages| && r in pages[k].items {
        if k > 0 { assert rest[k - 1] == pages[k]; }
      }
    }
  }

  lemma NamedTail(tables: seq<set<Row>>)
    requires Named(tables) && tables != []
    ensures Named([tables[0]]) && Named(tables[1..])
  {
    assert forall k :: 0 <= k < |tables[1..]| ==> tables[1..][k] == tables[k + 1];
    assert [tables[0]][0] == tables[0];
  }

  /** Everything a walk delivers lies beyond the cursor it starts from, in strictly descending order. */
  lemma {:induction false} PartDescends(c: Clock, cursor: Option<string>, tables: seq<set<Row>>,
                                        pages: seq<Page>, limit: nat)
    requires ValidClock(c) && limit >= 1 && Named(tables) && PartWalk(c, cursor, tables, pages, limit)
    ensures Descending(Concat(pages))
    ensures forall r :: r in Concat(pages) ==> Within(Place(c, cursor), r)
    decreases |pages|
  {
    if pages == [] { return; }
    NamedTail(tables);
    PageHolds(c, tables[0], cursor, limit, pages[0]);
    var p, rest := pages[0], pages[1..];
    assert Concat(pages) == p.items + Concat(rest);
    if p.nextCursor.Some? {
      PartDescends(c, p.nextCursor, tables[1..], rest, limit);
      hide *;
      PageThenRest(p.items, Concat(rest), Place(c, cursor), Place(c, p.nextCursor));
    } else {
      assert rest == [] && Concat(rest) == [];
      assert p.items + [] == p.items;
    }
  }

  lemma PageThenRest(items: seq<Row>, rest: seq<Row>, place: Option<Row>, next: Option<Row>)
    requires items != [] && next == Some(items[|items| - 1]) && Descending(items) && Descending(rest)
    requires forall r :: r in items ==> Within(place, r)
    requires forall r :: r in rest ==> Within(next, r)
    ensures Descending(items + rest)
    ensures forall r :: r in items + rest ==> Within(place, r)
  {
    hide After, Within;
    var last := items[|items| - 1];
    forall r | r in rest ensures After(r, last) && Within(place, r) {
      BeyondLast(r, last, next);
      WithinFurther(place, last, r);
    }
    DescendingAppend(items, rest);
  }

  lemma WalkDescends(c: Clock, cursor: Option<string>, tables: seq<set<Row>>, pages: seq<Page>, limit: nat)
    requires ValidClock(c) && limit >= 1 && Named(tables) && Walk(c, cursor, tables, pages, limit)
    ensures Descending(Concat(pages)) && NewestFirst(Concat(pages))
    ensures forall r :: r in Concat(pages) ==> Within(Place(c, cursor), r)
  {
    WalkIsEnded(c, cursor, tables, pages, limit);
    PartDescends(c, cursor, tables, pages, limit);
    DescendingIsNewestFirst(Concat(pages));
  }

  lemma BeyondLast(r: Row, last: Row, place: Option<Row>)
    requires place == Some(last) && Within(place, r)
    ensures After(r, last)
  {
  }

  lemma DescendingAppend(a: seq<Row>, b: seq<Row>)
    requires Descending(a) && Descending(b)
    requires a != [] && forall r :: r in b ==> After(r, a[|a| - 1])
    ensures Descending(a + b)
  {
    var all := a + b;
    forall i, j | 0 <= i < j < |all| ensures After(all[j], all[i]) {
      if j < |a| {
        assert all[i] == a[i] && all[j] == a[j];
      } else if i < |a| {
        assert all[j] == b[j - |a|] && all[j] in b;
        AfterOrder(all[j], a[|a| - 1], a[i]);
      } else {
        assert all[i] == b[i - |a|] && all[j] == b[j - |a|];
      }
    }
  }

  /** A row that is there all along and lies beyond the starting cursor is delivered. */
  lemma {:induction false} WalkMissesNothing(c: Clock, cursor: Option<string>, tables: seq<set<Row>>,
                                             pages: seq<Page>, limit: nat, r: Row)
    requires ValidClock(c) && limit >= 1 && Named(tables) && Walk(c, cursor, tables, pages, limit)
    requires InAll(tables, r) && Within(Place(c, cursor), r)
    ensures r in Concat(pages)
    decreases |pages|
  {
    NamedTail(tables);
    PageHolds(c, tables[0], cursor, limit, pages[0]);
    if r !in pages[0].items {
      assert forall k :: 0 <= k < |tables[1..]| ==> tables[1..][k] == tables[k + 1];
      hide Named, ValidClock, Within, Lists;
      WalkMissesNothing(c, pages[0].nextCursor, tables[1..], pages[1..], limit, r);
    }
  }

  /** Each page's rows are rows of the table as it was when the page was read. */
  lemma {:induction false} PartReadsTables(c: Clock, cursor: Option<string>, tables: seq<set<Row>>,
                                           pages: seq<Page>, limit: nat, k: nat, r: Row)
    requires ValidClock(c) && limit >= 1 && Named(tables) && PartWalk(c, cursor, tables, pages, limit)
    requires k < |pages| && r in pages[k].items
    ensures r in tables[k]
    decreases |pages|
  {
    NamedTail(tables);
    PageHolds(c, tables[0], cursor, limit, pages[0]);
    if k > 0 {
      hide Named, ValidClock, Within, Lists;
      PartReadsTables(c, pages[0].nextCursor, tables[1..], pages[1..], limit, k - 1, r);
    }
  }

  lemma WalkReadsTables(c: Clock, cursor: Option<string>, tables: seq<set<Row>>, pages: seq<Page>, limit: nat,
                        k: nat, r: Row)
    requires ValidClock(c) && limit >= 1 && Named(tables) && Walk(c, cursor, tables, pages, limit)
    requires k < |pages| && r in pages[k].items
    ensures r in tables[k]
  {
    WalkIsEnded(c, cursor, tables, pages, limit);
    PartReadsTables(c, cursor, tables, pages, limit, k, r);
  }

  /**
   Following the cursors to the end, whatever is inserted or deleted meanwhile: no row is delivered
   twice, the rows come in listing order, and every row present throughout is delivered.
   */
  lemma WalksAreComplete(c: Clock, tables: seq<set<Row>>, pages: seq<Page>, limit: nat)
    requires ValidClock(c) && limit >= 1 && Named(tables) && Walk(c, None, tables, pages, limit)
    ensures Descending(Concat(pages))
    ensures NewestFirst(Concat(pages))
    ensures forall r :: InAll(tables, r) ==> r in Concat(pages)
    ensures forall r :: r in Concat(pages) ==> exists k :: 0 <= k < |tables| && r in tables[k]
  {
    WalkDescends(c, None, tables, pages, limit);
    forall r | InAll(tables, r) ensures r in Concat(pages) {
      WalkMissesNothing(c, None, tables, pages, limit, r);
    }
    forall r | r in Concat(pages) ensures exists k :: 0 <= k < |tables| && r in tables[k] {
      ConcatIn(pages, r);
      var k :| 0 <= k < |pages| && r in pages[k].items;
      WalkReadsTables(c, None, tables, pages, limit, k, r);
    }
  }

  /**
   When all that happens during the walk is that rows newer than the first page's come in, the walk
   delivers exactly the rows of the table it began with.
   */
  lemma NewerRowsDoNotDisturb(c: Clock, table: set<Row>, tables: seq<set<Row>>, pages: seq<Page>,
                              limit: nat)
    requires ValidClock(c) && limit >= 1 && Named(tables) && Walk(c, None, tables, pages, limit)
    requires tables[0] == table
    requires forall k :: 0 <= k < |tables| ==> table <= tables[k]
    requires forall k, r, x ::
               (0 <= k < |tables| && r in tables[k] && r !in table && x in pages[0].items)
               ==> After(x, r)
    ensures forall r :: r in Concat(pages) <==> r in table
    ensures Descending(Concat(pages))
  {
    WalksAreComplete(c, tables, pages, limit);
    forall r ensures r in Concat(pages) <==> r in table {
      if r in table { assert InAll(tables, r); }
      if r in Concat(pages) && r !in table {
        LaterRowsAreOlder(c, table, tables, pages, limit, r);
      }
    }
  }

  lemma LaterRowsAreOlder(c: Clock, table: set<Row>, tables: seq<set<Row>>, pages: seq<Page>,
                          limit: nat, r: Row)
    requires ValidClock(c) && limit >= 1 && Named(tables) && Walk(c, None, tables, pages, limit)
    requires tables[0] == table && r in Concat(pages)
    requires forall k, x ::
               (0 <= k < |tables| && r in tables[k] && r !in table && x in pages[0].items)
               ==> After(x, r)
    ensures r in table
  {
    NamedTail(tables);
    PageHolds(c, tables[0], None, limit, pages[0]);
    ConcatIn(pages, r);
    var k :| 0 <= k < |pages| && r in pages[k].items;
    WalkReadsTables(c, None, tables, pages, limit, k, r);
    if k > 0 {
      var p := pages[0];
      WalkDescends(c, p.nextCursor, tables[1..], pages[1..], limit);
      ConcatIn(pages[1..], r);
      assert pages[1..][k - 1] == pages[k];
      var last := p.items[|p.items| - 1];
      BeyondLast(r, last, Place(c, p.nextCursor));
      assert last in p.items;
      if r !in table {
        AfterOrder(r, last, r);
      }
    }
  }

  /** A table that does not change is delivered as one listing of exactly its rows. */
  lemma StillTableIsListed(c: Clock, table: set<Row>, tables: seq<set<Row>>, pages: seq<Page>,
                           limit: nat)
    requires ValidClock(c) && limit >= 1 && Named(tables) && Walk(c, None, tables, pages, limit)
    requires forall k :: 0 <= k < |tables| ==> tables[k] == table
    ensures Descending(Concat(pages)) && NewestFirst(Concat(pages))
    ensures forall r :: r in Concat(pages) <==> r in table
  {
    DescendingIsNewestFirst(Concat(pages));
    NewerRowsDoNotDisturb(c, table, tables, pages, limit);
  }

  /** The number of rows a walk delivers bounds its length, so paging a finite table ends. */
  lemma {:induction false} WalkLength(c: Clock, cursor: Option<string>, tables: seq<set<Row>>,
                                      pages: seq<Page>, limit: nat)
    requires ValidClock(c) && limit >= 1 && Named(tables) && Walk(c, cursor, tables, pages, limit)
    ensures (|pages| - 1) * limit <= |Concat(pages)| <= |pages| * limit
    decreases |pages|
  {
    hide Named, ValidClock, Lists, Within, After, Place, Descending, NewestFirst;
    NamedTail(tables);
    PageHolds(c, tables[0], cursor, limit, pages[0]);
    if pages[0].nextCursor.Some? {
      WalkLength(c, pages[0].nextCursor, tables[1..], pages[1..], limit);
      hide *;
      OneMorePage(|pages|, limit);
      ConcatHead(pages);
    } else {
      assert pages[1..] == [];
    }
  }

  lemma OneMorePage(n: int, limit: int)
    ensures (n - 1) * limit == limit + (n - 1 - 1) * limit && n * limit == limit + (n - 1) * limit
  {
  }

  lemma ConcatHead(pages: seq<Page>)
    requires pages != []
    ensures |Concat(pages)| == |pages[0].items| + |Concat(pages[1..])|
  {
  }

  // ---- that walks end, and that there are any ----

  /** While there is a next cursor every page was full. */
  lemma {:induction false} FullPages(c: Clock, cursor: Option<string>, tables: seq<set<Row>>, pages: seq<Page>,
                                     limit: nat)
    requires ValidClock(c) && limit >= 1 && Named(tables) && PartWalk(c, cursor, tables, pages, limit)
    requires Unended(pages)
    ensures |Concat(pages)| == |pages| * limit
    decreases |pages|
  {
    hide Named, ValidClock, Lists, Within, After, Place, Descending, NewestFirst;
    NamedTail(tables);
    PageHolds(c, tables[0], cursor, limit, pages[0]);
    ConcatHead(pages);
    if |pages| > 1 {
      assert pages[1..][|pages| - 2] == pages[|pages| - 1];
      FullPages(c, pages[0].nextCursor, tables[1..], pages[1..], limit);
    } else {
      assert pages[1..] == [] && Concat([]) == [];
    }
    hide *;
    OneMorePage(|pages|, limit);
  }

  lemma {:induction false} DistinctFit(rows: seq<Row>, all: set<Row>)
    requires Descending(rows) && forall r :: r in rows ==> r in all
    ensures |rows| <= |all|
  {
    if rows != [] {
      var (before, last) := (rows[..|rows| - 1], rows[|rows| - 1]);
      forall r | r in before ensures r in all - {last} {
        var i :| 0 <= i < |before| && before[i] == r;
        AfterOrder(last, r, r);
      }
      DistinctFit(before, all - {last});
    }
  }

  /**
   Paging ends. As long as all rows that come and go during a walk are among `all`, cursors cannot be
   followed further than its size allows: the null cursor comes by page |all| / limit + 1 at the latest.
   */
  lemma CursorsRunOut(c: Clock, cursor: Option<string>, tables: seq<set<Row>>, pages: seq<Page>, limit: nat,
                      all: set<Row>)
    requires ValidClock(c) && limit >= 1 && Named(tables) && PartWalk(c, cursor, tables, pages, limit)
    requires Inside(tables, all)
    ensures Unended(pages) ==> |pages| * limit <= |all|
    ensures |pages| <= |all| / limit + 1
  {
    var n := FullPart(c, cursor, tables, pages, limit, all);
    Quotient(n, limit, |all|);
    hide *;
  }

  /** All rows of the tables are among `all`. */
  ghost predicate Inside(tables: seq<set<Row>>, all: set<Row>) {
    forall k :: 0 <= k < |tables| ==> tables[k] <= all
  }

  lemma FirstTables(tables: seq<set<Row>>, all: set<Row>, n: nat)
    requires Named(tables) && Inside(tables, all) && n <= |tables|
    ensures Named(tables[..n]) && Inside(tables[..n], all)
  {
  }

  predicate Fit(n: nat, limit: nat, size: nat) {
    n * limit <= size
  }

  /** The pages that had a next cursor fit into `all`; at most one page had none. */
  lemma FullPart(c: Clock, cursor: Option<string>, tables: seq<set<Row>>, pages: seq<Page>, limit: nat,
                 all: set<Row>) returns (n: nat)
    requires ValidClock(c) && limit >= 1 && Named(tables) && PartWalk(c, cursor, tables, pages, limit)
    requires Inside(tables, all)
    ensures |pages| <= n + 1 && Fit(n, limit, |all|) && (Unended(pages) ==> n == |pages|)
  {
    assert |tables| == |pages|;
    assert Fit(0, limit, |all|);
    hide ValidClock, PartWalk, Fit, Named, Inside, Unended;
    if Unended(pages) {
      n := |pages|;
      UnendedFits(c, cursor, tables, pages, limit, all);
    } else if |pages| <= 1 {
      n := 0;
    } else {
      n := |pages| - 1;
      PartOfPart(c, cursor, tables, pages, limit);
      FirstTables(tables, all, n);
      UnendedFits(c, cursor, tables[..n], pages[..n], limit, all);
      assert |pages[..n]| == n;
    }
  }

  lemma Quotient(n: nat, limit: nat, size: nat)
    requires limit >= 1 && Fit(n, limit, size)
    ensures n <= size / limit && n * limit <= size
  {
    var q := size / limit;
    if q + 1 <= n {
      MoreTimes(q + 1, n, limit);
    }
  }

  lemma {:induction false} MoreTimes(m: nat, n: nat, limit: nat)
    requires m <= n
    ensures m * limit <= n * limit
  {
    if m < n { MoreTimes(m, n - 1, limit); }
  }

  lemma UnendedFits(c: Clock, cursor: Option<string>, tables: seq<set<Row>>, pages: seq<Page>, limit: nat,
                    all: set<Row>)
    requires ValidClock(c) && limit >= 1 && Named(tables) && PartWalk(c, cursor, tables, pages, limit)
    requires Unended(pages) && Inside(tables, all)
    ensures Fit(|pages|, limit, |all|)
  {
    FullPages(c, cursor, tables, pages, limit);
    PartDescends(c, cursor, tables, pages, limit);
    forall r | r in Concat(pages) ensures r in all {
      ConcatIn(pages, r);
      var k :| 0 <= k < |pages| && r in pages[k].items;
      PartReadsTables(c, cursor, tables, pages, limit, k, r);
    }
    hide Named, ValidClock, PartWalk, Unended, Descending;
    DistinctFit(Concat(pages), all);
  }

  /** Stopping a page earlier leaves a part that has somewhere to go on to. */
  lemma {:induction false} PartOfPart(c: Clock, cursor: Option<string>, tables: seq<set<Row>>, pages: seq<Page>,
                                      limit: nat)
    requires PartWalk(c, cursor, tables, pages, limit) && pages != []
    ensures var n := |pages| - 1;
            PartWalk(c, cursor, tables[..n], pages[..n], limit) && (n > 0 ==> Unended(pages[..n]))
    decreases |pages|
  {
    hide Lists;
    var n := |pages| - 1;
    if n > 0 {
      PartOfPart(c, pages[0].nextCursor, tables[1..], pages[1..], limit);
      assert tables[1..][..n - 1] == tables[..n][1..] && pages[1..][..n - 1] == pages[..n][1..];
      if n > 1 {
        assert pages[1..][..n - 1][n - 2] == pages[..n][n - 1];
      }
    }
  }

  function Beyond(table: set<Row>, place: Option<Row>): set<Row> {
    set r | r in table && Within(place, r)
  }

  lemma {:induction false} Foremost(rows: set<Row>) returns (first: Row)
    requires rows != {}
    ensures first in rows && forall r :: r in rows && r != first ==> After(r, first)
    decreases |rows|
  {
    first :| first in rows;
    if rows != {first} {
      var rest := rows - {first};
      assert rows == rest + {first};
      var other := Foremost(rest);
      AfterOrder(first, other, first);
      if After(first, other) {
        first := other;
      } else {
        forall r | r in rest && r != other ensures After(r, first) {
          AfterOrder(r, other, first);
        }
      }
    }
  }

  /** Every finite set of rows has a listing. */
  lemma {:induction false} Listing(rows: set<Row>) returns (listed: seq<Row>)
    ensures Descending(listed) && |listed| == |rows| && forall r :: r in listed <==> r in rows
    decreases |rows|
  {
    if rows == {} {
      listed := [];
    } else {
      var first := Foremost(rows);
      var rest := Listing(rows - {first});
      listed := [first] + rest;
      hide After;
      DescendingAppend([first], rest);
    }
  }

  /** Whatever the table, the query has an answer. */
  lemma ResultExists(table: set<Row>, place: Option<Row>, n: nat) returns (rows: seq<Row>)
    ensures IsResult(table, place, n, rows)
  {
    var listed := Listing(Beyond(table, place));
    rows := if |listed| <= n then listed else listed[..n];
    hide After, Within;
    forall r | r in table && Within(place, r) && r !in rows
      ensures |rows| == n && forall x :: x in rows ==> After(r, x)
    {
      assert r in Beyond(table, place) && r in listed;
      var j :| 0 <= j < |listed| && listed[j] == r;
      assert forall k :: 0 <= k < |rows| ==> rows[k] == listed[k] && rows[k] in rows;
      forall x | x in rows ensures After(r, x) {
        var i :| 0 <= i < |rows| && rows[i] == x;
        assert listed[i] == x && i < j;
      }
    }
    forall r | r in rows ensures r in table && Within(place, r) {
      assert r in listed;
    }
  }

  function Same(table: set<Row>, n: nat): seq<set<Row>> {
    seq(n, _ => table)
  }

  /** From every cursor that can be decoded, the cursors of a table can be followed to the end. */
  lemma {:induction false} WalkExists(c: Clock, table: set<Row>, cursor: Option<string>, limit: nat)
    returns (pages: seq<Page>)
    requires ValidClock(c) && limit >= 1 && Named([table])
    requires cursor.Some? ==> Decode(c, cursor.value).Some?
    ensures Walk(c, cursor, Same(table, |pages|), pages, limit)
    decreases |Beyond(table, Place(c, cursor))|
  {
    var rows := ResultExists(table, Place(c, cursor), limit + 1);
    var page := PageOf(c, rows, limit);
    assert Lists(c, table, cursor, limit, page);
    hide Lists, IsResult, PageOf;
    if page.nextCursor.None? {
      pages := [page];
      assert Same(table, 1)[0] == table;
    } else {
      hide ValidClock, Named, Decode;
      PageHolds(c, table, cursor, limit, page);
      BeyondShrinks(c, table, cursor, limit, page);
      var rest := WalkExists(c, table, page.nextCursor, limit);
      pages := [page] + rest;
      assert Same(table, |pages|)[1..] == Same(table, |rest|) && pages[1..] == rest;
    }
  }

  lemma BeyondShrinks(c: Clock, table: set<Row>, cursor: Option<string>, limit: nat, p: Page)
    requires ValidClock(c) && limit >= 1 && Named([table]) && Lists(c, table, cursor, limit, p)
    requires p.nextCursor.Some?
    ensures Place(c, p.nextCursor).Some?
    ensures |Beyond(table, Place(c, p.nextCursor))| < |Beyond(table, Place(c, cursor))|
  {
    PageHolds(c, table, cursor, limit, p);
    var last := p.items[|p.items| - 1];
    assert last in p.items;
    hide Lists, Named, ValidClock, Place;
    var (was, next) := (Beyond(table, Place(c, cursor)), Beyond(table, Some(last)));
    forall r | r in next ensures r in was - {last} {
      AfterOrder(r, last, r);
      WithinFurther(Place(c, cursor), last, r);
    }
    SubsetSize(next, was - {last});
  }

  lemma NamedThroughout(table: set<Row>, n: nat)
    requires Named([table])
    ensures Named(Same(table, n)) && Inside(Same(table, n), table)
  {
    assert [table][0] == table;
  }

  /**
   Over every finite table a complete walk exists, has at most |table| / limit + 1 pages, and delivers
   exactly the table, sorted.
   */
  lemma EveryTableIsListed(c: Clock, table: set<Row>, limit: nat) returns (pages: seq<Page>)
    requires ValidClock(c) && limit >= 1 && Named([table])
    ensures Walk(c, None, Same(table, |pages|), pages, limit)
    ensures |pages| <= |table| / limit + 1
    ensures NewestFirst(Concat(pages)) && forall r :: r in Concat(pages) <==> r in table
  {
    pages := WalkExists(c, table, None, limit);
    var tables := Same(table, |pages|);
    NamedThroughout(table, |pages|);
    hide Walk, PartWalk, Named, ValidClock, Lists, Within, After, Decode, Descending, NewestFirst, Unended, Inside;
    WalkIsEnded(c, None, tables, pages, limit);
    CursorsRunOut(c, None, tables, pages, limit, table);
    StillTableIsListed(c, table, tables, pages, limit);
  }
}
