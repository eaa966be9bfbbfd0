/** Cursor pagination: the index form (src/common/pagination.ts) and the keyset form of the
    two list services (src/products/products.service.ts, src/orders/orders.service.ts). */
module Pagination {
  import opened Base

  datatype Row = Row(id: nat, owner: Option<nat>)

  /** base64url(JSON.stringify({ id })) as an abstract injective code; anything else does not
      decode to an object with a string id. */
  datatype Cursor = Encoded(id: string) | Garbage

  datatype Page = Page(items: seq<Row>, next: Option<Cursor>)

  function Decode(c: Option<Cursor>): Option<string> {
    if c.Some? && c.value.Encoded? then Some(c.value.id) else None
  }

  /** Number(s) where it matters: plain decimals; everything else is NaN, which is falsy. */
  function ToNumber(s: string): nat {
    if s != [] && forall i :: 0 <= i < |s| ==> IsDigit(s[i]) then DecimalValue(s) else 0
  }

  /** An ascending table of positive ids. */
  ghost predicate Ascending(rows: seq<Row>) {
    && (forall i, j :: 0 <= i < j < |rows| ==> rows[i].id < rows[j].id)
    && (forall i :: 0 <= i < |rows| ==> rows[i].id > 0)
  }

  // ---------------------------------------------------------------- the two forms

  /** findIndex of a string id, or the length of the list. */
  function FindIndex(rows: seq<Row>, id: string): (i: nat)
    ensures i <= |rows|
    ensures i < |rows| ==> Decimal(rows[i].id) == id
    ensures forall j :: 0 <= j < i ==> Decimal(rows[j].id) != id
  {
    if rows == [] || Decimal(rows[0].id) == id then 0
    else
      var i := FindIndex(rows[1..], id);
      assert forall j :: 0 < j < 1 + i ==> rows[j] == rows[1..][j - 1];
      1 + i
  }

  function Slice(rows: seq<Row>, limit: nat): seq<Row> { if |rows| <= limit then rows else rows[..limit] }

  function NextCursor(page: seq<Row>, hasMore: bool): Option<Cursor> {
    if hasMore && page != [] then Some(Encoded(Decimal(page[|page| - 1].id))) else None
  }

  /** paginate: continue behind the row the cursor names, or from the start if there is none. */
  function IndexPage(rows: seq<Row>, limit: nat, cursor: Option<Cursor>): Page {
    var decoded := Decode(cursor);
    var found := if decoded.Some? then FindIndex(rows, decoded.value) else |rows|;
    var start := if found < |rows| then found + 1 else 0;
    var page := Slice(rows[start..], limit);
    Page(page, NextCursor(page, start + limit < |rows|))
  }

  /** WHERE id > after, in order. */
  function After(rows: seq<Row>, after: nat): seq<Row> {
    if rows == [] then []
    else if rows[0].id > after then [rows[0]] + After(rows[1..], after)
    else After(rows[1..], after)
  }

  /** findAll: ids greater than the cursor's, one more than asked for to see if there is more. */
  function KeysetPage(rows: seq<Row>, limit: nat, cursor: Option<Cursor>): Page {
    var decoded := Decode(cursor);
    var afterId := if decoded.Some? then ToNumber(decoded.value) else 0;
    var fetched := Slice(if afterId != 0 then After(rows, afterId) else rows, limit + 1);
    var page := Slice(fetched, limit);
    Page(page, NextCursor(page, |fetched| > limit))
  }

  // ---------------------------------------------------------------- equal pages

  /** In an ascending table the rows behind row k are those with a greater id. */
  lemma {:induction false} AfterIsSuffix(rows: seq<Row>, k: nat, after: nat)
    requires k <= |rows|
    requires forall i :: 0 <= i < k ==> rows[i].id <= after
    requires forall i :: k <= i < |rows| ==> rows[i].id > after
    ensures After(rows, after) == rows[k..]
    decreases k
  {
    if k == 0 {
      AfterAll(rows, after);
    } else {
      AfterIsSuffix(rows[1..], k - 1, after);
      assert rows[1..][k - 1..] == rows[k..];
    }
  }

  lemma {:induction false} AfterAll(rows: seq<Row>, after: nat)
    requires forall i :: 0 <= i < |rows| ==> rows[i].id > after
    ensures After(rows, after) == rows
  {
    if rows != [] {
      AfterAll(rows[1..], after);
      assert rows == [rows[0]] + rows[1..];
    }
  }

  lemma NumberOfDecimal(c: nat)
    ensures ToNumber(Decimal(c)) == c
  {
    DecimalRoundTrip(c);
  }

  /** The cursor that stands for "behind the first k rows". */
  function CursorAt(rows: seq<Row>, k: nat): Option<Cursor>
    requires k <= |rows|
  {
    if k == 0 then None else Some(Encoded(Decimal(rows[k - 1].id)))
  }

  /** The page behind the first k rows: the next rows, and the cursor that stands behind
      them, or none at the end. */
  function PageFrom(rows: seq<Row>, k: nat, limit: nat): Page
    requires k <= |rows|
  {
    Page(rows[k..Min(k + limit, |rows|)], if k + limit < |rows| then CursorAt(rows, k + limit) else None)
  }

  lemma SliceIsPage(rows: seq<Row>, k: nat, limit: nat)
    requires k <= |rows| && limit >= 1
    ensures var page := Slice(rows[k..], limit); Page(page, NextCursor(page, k + limit < |rows|)) == PageFrom(rows, k, limit)
  {
    var page := Slice(rows[k..], limit);
    assert page == rows[k..Min(k + limit, |rows|)];
    if k + limit < |rows| {
      assert page[|page| - 1] == rows[k + limit - 1];
    }
  }

  lemma IndexPageAt(rows: seq<Row>, limit: nat, k: nat)
    requires Ascending(rows) && k < |rows| && limit >= 1
    ensures IndexPage(rows, limit, Some(Encoded(Decimal(rows[k].id)))) == PageFrom(rows, k + 1, limit)
  {
    var i := FindIndex(rows, Decimal(rows[k].id));
    assert i <= k;
    DecimalInjective(rows[i].id, rows[k].id);
    SliceIsPage(rows, k + 1, limit);
  }

  lemma KeysetPageAt(rows: seq<Row>, limit: nat, c: nat, k: nat)
    requires Ascending(rows) && c > 0 && k <= |rows| && limit >= 1
    requires forall i :: 0 <= i < k ==> rows[i].id <= c
    requires forall i :: k <= i < |rows| ==> rows[i].id > c
    ensures KeysetPage(rows, limit, Some(Encoded(Decimal(c)))) == PageFrom(rows, k, limit)
  {
    NumberOfDecimal(c);
    AfterIsSuffix(rows, k, c);
    assert Slice(Slice(rows[k..], limit + 1), limit) == Slice(rows[k..], limit);
    SliceIsPage(rows, k, limit);
  }

  lemma FirstPages(rows: seq<Row>, limit: nat, cursor: Option<Cursor>)
    requires (cursor == None || cursor == Some(Garbage)) && limit >= 1
    ensures IndexPage(rows, limit, cursor) == KeysetPage(rows, limit, cursor) == PageFrom(rows, 0, limit)
  {
    assert rows[0..] == rows;
    assert Slice(Slice(rows, limit + 1), limit) == Slice(rows, limit);
    SliceIsPage(rows, 0, limit);
  }

  lemma {:induction false} Boundary(rows: seq<Row>, c: nat) returns (k: nat)
    requires Ascending(rows)
    ensures k <= |rows|
    ensures forall i :: 0 <= i < k ==> rows[i].id <= c
    ensures forall i :: k <= i < |rows| ==> rows[i].id > c
    decreases |rows|
  {
    if rows == [] || rows[0].id > c {
      k := 0;
    } else {
      k := Boundary(rows[1..], c);
      k := k + 1;
      forall i | 0 <= i < k ensures rows[i].id <= c { assert i > 0 ==> rows[i] == rows[1..][i - 1]; }
      forall i | k <= i < |rows| ensures rows[i].id > c { assert rows[i] == rows[1..][i - 1]; }
    }
  }

  /** On a cursor naming id c the two forms give the same page exactly when c is in the table
      or below all of it: a cursor whose row is gone makes the index form start over, while
      the keyset form carries on behind the gap. */
  lemma SamePageIff(rows: seq<Row>, limit: nat, c: nat)
    requires Ascending(rows) && limit >= 1 && c > 0
    ensures IndexPage(rows, limit, Some(Encoded(Decimal(c)))) == KeysetPage(rows, limit, Some(Encoded(Decimal(c))))
      <==> (exists k :: 0 <= k < |rows| && rows[k].id == c) || (forall k :: 0 <= k < |rows| ==> rows[k].id > c)
  {
    if k :| 0 <= k < |rows| && rows[k].id == c {
      SamePageInside(rows, limit, k);
    } else {
      var b := Boundary(rows, c);
      KeysetPageAt(rows, limit, c, b);
      IndexPageStartsOver(rows, limit, c);
      PagesDiffer(rows, limit, b);
      assert b == 0 <==> forall k :: 0 <= k < |rows| ==> rows[k].id > c;
    }
  }

  lemma SamePageInside(rows: seq<Row>, limit: nat, k: nat)
    requires Ascending(rows) && limit >= 1 && k < |rows|
    ensures var cursor := Some(Encoded(Decimal(rows[k].id))); IndexPage(rows, limit, cursor) == KeysetPage(rows, limit, cursor)
  {
    IndexPageAt(rows, limit, k);
    KeysetPageAt(rows, limit, rows[k].id, k + 1);
  }

  lemma IndexPageStartsOver(rows: seq<Row>, limit: nat, c: nat)
    requires limit >= 1 && forall k :: 0 <= k < |rows| ==> rows[k].id != c
    ensures IndexPage(rows, limit, Some(Encoded(Decimal(c)))) == PageFrom(rows, 0, limit)
  {
    var i := FindIndex(rows, Decimal(c));
    if i < |rows| { DecimalInjective(rows[i].id, c); }
    SliceIsPage(rows, 0, limit);
  }

  lemma PagesDiffer(rows: seq<Row>, limit: nat, b: nat)
    requires Ascending(rows) && limit >= 1 && b <= |rows|
    ensures PageFrom(rows, 0, limit) == PageFrom(rows, b, limit) <==> b == 0
  {
    if b > 0 {
      var first, other := PageFrom(rows, 0, limit).items, PageFrom(rows, b, limit).items;
      assert first[0] == rows[0];
      assert other != [] ==> other[0] == rows[b];
    }
  }

  // ---------------------------------------------------------------- following the cursor

  /** The list endpoint over a fixed table, in either form. */
  function Fetch(keyset: bool, rows: seq<Row>, limit: nat): Option<Cursor> -> Page {
    if keyset then c => KeysetPage(rows, limit, c) else c => IndexPage(rows, limit, c)
  }

  lemma NextPages(keyset: bool, rows: seq<Row>, limit: nat, k: nat)
    requires Ascending(rows) && 0 < k <= |rows| && limit >= 1
    ensures var cursor := Some(Encoded(Decimal(rows[k - 1].id)));
      (if keyset then KeysetPage(rows, limit, cursor) else IndexPage(rows, limit, cursor)) == PageFrom(rows, k, limit)
  {
    if keyset {
      KeysetPageAt(rows, limit, rows[k - 1].id, k);
    } else {
      IndexPageAt(rows, limit, k - 1);
    }
  }

  /** A page asked for with such a cursor holds the next rows, and hands out the cursor that
      stands behind them, or none at the end. */
  lemma FetchAt(keyset: bool, rows: seq<Row>, limit: nat, k: nat)
    requires Ascending(rows) && k <= |rows| && limit >= 1
    ensures Fetch(keyset, rows, limit)(CursorAt(rows, k)) == PageFrom(rows, k, limit)
  {
    var cursor := CursorAt(rows, k);
    assert Fetch(keyset, rows, limit)(cursor) == if keyset then KeysetPage(rows, limit, cursor) else IndexPage(rows, limit, cursor);
    if k == 0 {
      FirstPages(rows, limit, None);
    } else {
      NextPages(keyset, rows, limit, k);
    }
  }

  /** The pages a client sees that starts without a cursor and follows next_cursor until it
      is null; a client cannot tell whether the walk will end, so `budget` pages are asked for
      at most. */
  function Walk(fetch: Option<Cursor> -> Page, cursor: Option<Cursor>, budget: nat): seq<Page>
    decreases budget
  {
    if budget == 0 then []
    else
      var p := fetch(cursor);
      if p.next.None? then [p] else [p] + Walk(fetch, p.next, budget - 1)
  }

  function Items(pages: seq<Page>): seq<Row> {
    if pages == [] then [] else pages[0].items + Items(pages[1..])
  }

  /** The same walk by positions: k, k + limit, k + 2 limit, ... */
  function WalkByPosition(rows: seq<Row>, limit: nat, k: nat): seq<Page>
    requires limit >= 1 && k <= |rows|
    decreases |rows| - k
  {
    if k + limit < |rows| then [PageFrom(rows, k, limit)] + WalkByPosition(rows, limit, k + limit)
    else [PageFrom(rows, k, limit)]
  }

  ghost predicate Pages(fetch: Option<Cursor> -> Page, rows: seq<Row>, limit: nat) {
    forall k: nat :: k <= |rows| ==> fetch(CursorAt(rows, k)) == PageFrom(rows, k, limit)
  }

  lemma FetchPages(keyset: bool, rows: seq<Row>, limit: nat)
    requires Ascending(rows) && limit >= 1
    ensures Pages(Fetch(keyset, rows, limit), rows, limit)
  {
    forall k: nat | k <= |rows| ensures Fetch(keyset, rows, limit)(CursorAt(rows, k)) == PageFrom(rows, k, limit) {
      FetchAt(keyset, rows, limit, k);
    }
  }

  /** Each page is what its predecessor's cursor fetches, and only the last has none. */
  ghost predicate Chain(fetch: Option<Cursor> -> Page, cursor: Option<Cursor>, pages: seq<Page>)
    decreases |pages|
  {
    && pages != [] && pages[0] == fetch(cursor)
    && (if |pages| == 1 then pages[0].next.None? else pages[0].next.Some? && Chain(fetch, pages[0].next, pages[1..]))
  }

  lemma {:induction false} WalkIsChain(fetch: Option<Cursor> -> Page, cursor: Option<Cursor>, pages: seq<Page>, budget: nat)
    requires Chain(fetch, cursor, pages) && |pages| <= budget
    ensures Walk(fetch, cursor, budget) == pages
    decreases |pages|
  {
    if |pages| > 1 {
      WalkIsChain(fetch, pages[0].next, pages[1..], budget - 1);
    }
    assert pages == [pages[0]] + pages[1..];
  }

  lemma {:induction false} PositionsChain(fetch: Option<Cursor> -> Page, rows: seq<Row>, limit: nat, k: nat)
    requires Pages(fetch, rows, limit) && limit >= 1 && k <= |rows|
    ensures Chain(fetch, CursorAt(rows, k), WalkByPosition(rows, limit, k))
    decreases |rows| - k
  {
    var p := PageFrom(rows, k, limit);
    assert fetch(CursorAt(rows, k)) == p;
    if k + limit < |rows| {
      PositionsChain(fetch, rows, limit, k + limit);
      assert p.next == CursorAt(rows, k + limit);
      ChainCons(fetch, CursorAt(rows, k), p, WalkByPosition(rows, limit, k + limit));
    }
  }

  lemma ChainCons(fetch: Option<Cursor> -> Page, cursor: Option<Cursor>, p: Page, rest: seq<Page>)
    requires p == fetch(cursor) && p.next.Some? && Chain(fetch, p.next, rest)
    ensures Chain(fetch, cursor, [p] + rest)
  {
    assert ([p] + rest)[1..] == rest;
  }

  lemma {:induction false} WalkCoversRest(rows: seq<Row>, limit: nat, k: nat)
    requires limit >= 1 && k <= |rows|
    ensures Items(WalkByPosition(rows, limit, k)) == rows[k..]
    decreases |rows| - k
  {
    var p := PageFrom(rows, k, limit);
    if k + limit < |rows| {
      var rest := WalkByPosition(rows, limit, k + limit);
      WalkCoversRest(rows, limit, k + limit);
      ItemsCons(p, rest);
      SplitAt(rows, k, k + limit);
      assert p.items == rows[k..k + limit];
    } else {
      ItemsCons(p, []);
      assert [p] + [] == [p] && p.items + Items([]) == p.items;
      assert p.items == rows[k..];
    }
  }

  lemma SplitAt(rows: seq<Row>, k: nat, m: nat)
    requires k <= m <= |rows|
    ensures rows[k..m] + rows[m..] == rows[k..]
  {
  }

  lemma ItemsCons(p: Page, rest: seq<Page>)
    ensures Items([p] + rest) == p.items + Items(rest)
  {
    assert ([p] + rest)[1..] == rest;
  }

  lemma {:induction false} WalkEnds(rows: seq<Row>, limit: nat, k: nat)
    requires limit >= 1 && k <= |rows|
    ensures var pages := WalkByPosition(rows, limit, k); pages != [] && pages[|pages| - 1].next.None?
    decreases |rows| - k
  {
    if k + limit < |rows| {
      WalkEnds(rows, limit, k + limit);
    }
  }

  lemma {:induction false} WalkLength(rows: seq<Row>, limit: nat, k: nat)
    requires limit >= 1 && k <= |rows|
    ensures var n := |WalkByPosition(rows, limit, k)|;
      n >= 1 && (n - 1) * limit <= |rows| - k <= n * limit && (|rows| > k ==> (n - 1) * limit < |rows| - k)
    decreases |rows| - k
  {
    var n := |WalkByPosition(rows, limit, k)|;
    if k + limit < |rows| {
      WalkLength(rows, limit, k + limit);
      Distribute(n - 1, limit);
    } else {
      assert n == 1;
    }
  }

  lemma Distribute(m: nat, x: nat)
    requires m >= 1
    ensures (m - 1) * x + x == m * x && m * x + x == (m + 1) * x
  {
  }

  lemma EnoughPages(n: nat, rows: nat, limit: nat, budget: nat)
    requires n >= 1 && limit >= 1 && budget >= 1 && budget * limit >= rows
    requires rows > 0 ==> (n - 1) * limit < rows
    requires rows == 0 ==> (n - 1) * limit <= 0
    ensures n <= budget
  {
    if n - 1 >= budget {
      MulMonotone(budget, n - 1, limit);
      MulMonotone(1, n - 1, limit);
    }
  }

  /** The walk by positions is as long as it should be, ends, and covers the table. */
  lemma PositionsAreRight(rows: seq<Row>, limit: nat)
    requires limit >= 1
    ensures var pages := WalkByPosition(rows, limit, 0);
      && Items(pages) == rows
      && pages != [] && pages[|pages| - 1].next.None?
      && (|pages| - 1) * limit <= |rows| <= |pages| * limit
  {
    WalkLength(rows, limit, 0);
    WalkCoversRest(rows, limit, 0);
    WalkEnds(rows, limit, 0);
    assert rows[0..] == rows;
  }

  /** A client that follows the cursors walks by positions. */
  lemma WalkIsByPosition(keyset: bool, rows: seq<Row>, limit: nat, budget: nat)
    requires Ascending(rows) && limit >= 1 && |WalkByPosition(rows, limit, 0)| <= budget
    ensures Walk(Fetch(keyset, rows, limit), None, budget) == WalkByPosition(rows, limit, 0)
  {
    FetchPages(keyset, rows, limit);
    PositionsChain(Fetch(keyset, rows, limit), rows, limit, 0);
    WalkIsChain(Fetch(keyset, rows, limit), None, WalkByPosition(rows, limit, 0), budget);
  }

  /** In both forms the walk ends, after ceil(n / limit) pages (one for an empty table), and
      the pages put together are exactly the table: every row once, in order. */
  lemma WalkVisitsEverythingOnce(keyset: bool, rows: seq<Row>, limit: nat, budget: nat)
    requires Ascending(rows) && limit >= 1 && budget * limit >= |rows| && budget >= 1
    ensures var pages := Walk(Fetch(keyset, rows, limit), None, budget);
      && Items(pages) == rows
      && pages != [] && pages[|pages| - 1].next.None?
      && (|pages| - 1) * limit <= |rows| <= |pages| * limit
  {
    assert |WalkByPosition(rows, limit, 0)| <= budget by {
      WalkLength(rows, limit, 0);
      EnoughPages(|WalkByPosition(rows, limit, 0)|, |rows|, limit, budget);
    }
    PositionsAreRight(rows, limit);
    WalkIsByPosition(keyset, rows, limit, budget);
  }

  // ---------------------------------------------------------------- orders of one user

  predicate Visible(row: Row, seesAll: bool, actor: nat) { seesAll || row.owner == Some(actor) }

  /** WHERE user = actor, unless the actor is an admin. */
  function Own(rows: seq<Row>, seesAll: bool, actor: nat): seq<Row> {
    if rows == [] then []
    else if Visible(rows[0], seesAll, actor) then [rows[0]] + Own(rows[1..], seesAll, actor)
    else Own(rows[1..], seesAll, actor)
  }

  lemma {:induction false} OwnMembers(rows: seq<Row>, seesAll: bool, actor: nat)
    ensures |Own(rows, seesAll, actor)| <= |rows|
    ensures seesAll ==> Own(rows, seesAll, actor) == rows
    ensures forall r :: r in Own(rows, seesAll, actor) <==> r in rows && (seesAll || r.owner == Some(actor))
    decreases |rows|
  {
    if rows != [] {
      assert rows == [rows[0]] + rows[1..];
      OwnMembers(rows[1..], seesAll, actor);
    }
  }

  lemma {:induction false} OwnOrder(rows: seq<Row>, seesAll: bool, actor: nat)
    requires Ascending(rows)
    ensures Ascending(Own(rows, seesAll, actor))
    decreases |rows|
  {
    if rows != [] {
      OwnOrder(rows[1..], seesAll, actor);
      OwnMembers(rows[1..], seesAll, actor);
      var rest := Own(rows[1..], seesAll, actor);
      forall i | 0 <= i < |rest| ensures rest[i].id > rows[0].id {
        assert rest[i] in rows[1..];
        BehindHead(rows, rest[i]);
      }
      HeadFirst(rows[0], rest);
    }
  }

  lemma BehindHead(rows: seq<Row>, r: Row)
    requires Ascending(rows) && rows != [] && r in rows[1..]
    ensures r.id > rows[0].id
  {
    var j :| 0 <= j < |rows[1..]| && rows[1..][j] == r;
    assert rows[j + 1] == r;
  }

  lemma HeadFirst(head: Row, rest: seq<Row>)
    requires Ascending(rest) && head.id > 0 && forall i :: 0 <= i < |rest| ==> rest[i].id > head.id
    ensures Ascending([head] + rest)
  {
  }

  /** The order list as `findAll` serves it to an actor with this role. */
  function OrderList(rows: seq<Row>, role: Option<string>, actor: nat, limit: nat): Option<Cursor> -> Page {
    Fetch(true, Own(rows, role == Some("admin"), actor), limit)
  }

  /** Walking the order list shows a user exactly the orders that are his own, each once and in
      order of their ids, and an admin all orders. */
  lemma OrdersWalk(rows: seq<Row>, role: Option<string>, actor: nat, limit: nat, budget: nat)
    requires Ascending(rows) && limit >= 1 && budget * limit >= |rows| && budget >= 1
    ensures var seen := Items(Walk(OrderList(rows, role, actor, limit), None, budget));
      && (role == Some("admin") ==> seen == rows)
      && (role != Some("admin") ==> forall r :: r in seen <==> r in rows && r.owner == Some(actor))
      && (forall i, j :: 0 <= i < j < |seen| ==> seen[i].id < seen[j].id)
  {
    var seesAll := role == Some("admin");
    OwnMembers(rows, seesAll, actor);
    OwnOrder(rows, seesAll, actor);
    WalkVisitsEverythingOnce(true, Own(rows, seesAll, actor), limit, budget);
  }
}
