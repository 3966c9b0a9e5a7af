/** The shared activity loop over the simulator's page server: whatever the page size, the visible matching activities
    after the cursor, ascending, each once. Activity ids are numbers in the order of the id strings. */
module ActivityPaging {
  import opened Common

  /** One row of a page; a missing or malformed id is `None`. */
  datatype Row = Row(id: Option<nat>, body: nat)

  datatype Item = Item(id: nat, body: nat)

  datatype Paging = Paging(found: seq<Item>, token: Option<nat>, tokens: set<nat>)

  function IdsOf(items: seq<Item>): set<nat> {
    set x | x in items :: x.id
  }

  /** Adds a page's rows; a missing or repeated identity breaks the read. */
  function AddRows(found: seq<Item>, rows: seq<Row>): Option<seq<Item>> {
    if rows == [] then Some(found)
    else
      var n := |rows| - 1;
      match AddRows(found, rows[..n])
      case None => None
      case Some(items) =>
        if rows[n].id.None? || rows[n].id.value in IdsOf(items) then None
        else Some(items + [Item(rows[n].id.value, rows[n].body)])
  }

  datatype Turn = Broken | Finished(found: seq<Item>) | More(paging: Paging)

  function TakePage(p: Paging, rows: seq<Row>, size: nat): Turn {
    if |rows| > size then Broken
    else match AddRows(p.found, rows)
      case None => Broken
      case Some(found) =>
        if |rows| < size then Finished(found)
        else if rows == [] || rows[|rows| - 1].id.None? || rows[|rows| - 1].id.value in p.tokens then Broken
        else More(Paging(found, rows[|rows| - 1].id, p.tokens + {rows[|rows| - 1].id.value}))
  }

  ghost predicate Serves(fetch: Option<nat> -> seq<Row>, universe: set<nat>) {
    forall token, row :: row in fetch(token) && row.id.Some? ==> row.id.value in universe
  }

  lemma {:induction false} AddGrows(found: seq<Item>, rows: seq<Row>, universe: set<nat>)
    requires IdsOf(found) <= universe && forall row :: row in rows && row.id.Some? ==> row.id.value in universe
    ensures var r := AddRows(found, rows);
            r.Some? ==> && IdsOf(found) <= IdsOf(r.value) <= universe
                        && |IdsOf(r.value)| == |IdsOf(found)| + |rows|
  {
    if rows != [] {
      var n := |rows| - 1;
      assert rows[n] in rows;
      AddGrows(found, rows[..n], universe);
      var r := AddRows(found, rows[..n]);
      if r.Some? && AddRows(found, rows).Some? {
        var x := Item(rows[n].id.value, rows[n].body);
        assert IdsOf(r.value + [x]) == IdsOf(r.value) + {x.id};
      }
    }
  }

  lemma PageGrows(p: Paging, rows: seq<Row>, size: nat, universe: set<nat>)
    requires IdsOf(p.found) <= universe && forall row :: row in rows && row.id.Some? ==> row.id.value in universe
    ensures var t := TakePage(p, rows, size);
            t.More? ==>
              && IdsOf(t.paging.found) <= universe
              && |universe - IdsOf(t.paging.found)| < |universe - IdsOf(p.found)|
  {
    AddGrows(p.found, rows, universe);
    var t := TakePage(p, rows, size);
    if t.More? {
      var was, now := IdsOf(p.found), IdsOf(t.paging.found);
      assert universe == was + (universe - was) && universe == now + (universe - now);
    }
  }

  ghost function PageFrom(fetch: Option<nat> -> seq<Row>, universe: set<nat>, p: Paging, size: nat): Option<seq<Item>>
    requires Serves(fetch, universe) && IdsOf(p.found) <= universe
    decreases |universe - IdsOf(p.found)|
  {
    match TakePage(p, fetch(p.token), size)
    case Broken => None
    case Finished(found) => Some(found)
    case More(next) =>
      PageGrows(p, fetch(p.token), size, universe);
      PageFrom(fetch, universe, next, size)
  }

  function StartAfter(cursor: Option<nat>): Paging {
    Paging([], cursor, if cursor.Some? then {cursor.value} else {})
  }

  // ---- what the read must show, said of the rows alone ----

  /** The items are the rows, in order. */
  predicate Lists(items: seq<Item>, rows: seq<Row>) {
    |items| == |rows| && forall i :: 0 <= i < |rows| ==> rows[i] == Row(Some(items[i].id), items[i].body)
  }

  /** Every row of the page has an identity that neither an earlier page nor an earlier row has. */
  ghost predicate Fresh(listed: seq<Row>, page: seq<Row>) {
    && (forall i :: 0 <= i < |page| ==> page[i].id.Some?)
    && (forall i, j :: 0 <= i < j < |page| ==> page[i].id != page[j].id)
    && (forall i, j :: 0 <= i < |listed| && 0 <= j < |page| ==> listed[i].id != page[j].id)
  }

  lemma FreshSplits(listed: seq<Row>, page: seq<Row>, row: Row)
    ensures Fresh(listed, page + [row])
            <==> Fresh(listed, page) && row.id.Some? && forall i :: 0 <= i < |listed + page| ==>
                                                               (listed + page)[i].id != row.id
  {
    var all := page + [row];
    assert all[|page|] == row && forall i :: 0 <= i < |page| ==> all[i] == page[i];
    if forall i :: 0 <= i < |listed + page| ==> (listed + page)[i].id != row.id {
      assert forall i :: 0 <= i < |page| ==> (listed + page)[|listed| + i] == page[i];
      assert forall i :: 0 <= i < |listed| ==> (listed + page)[i] == listed[i];
    }
  }

  lemma ListedIds(items: seq<Item>, rows: seq<Row>, id: nat)
    requires Lists(items, rows)
    ensures id in IdsOf(items) <==> exists i :: 0 <= i < |rows| && rows[i].id == Some(id)
  {
    if id in IdsOf(items) {
      var x :| x in items && x.id == id;
      var i :| 0 <= i < |items| && items[i] == x;
      assert rows[i].id == Some(id);
    }
    if i :| 0 <= i < |rows| && rows[i].id == Some(id) { assert items[i] in items; }
  }

  lemma {:induction false} RowsAre(found: seq<Item>, listed: seq<Row>, page: seq<Row>)
    requires Lists(found, listed)
    ensures AddRows(found, page).Some? <==> Fresh(listed, page)
    ensures AddRows(found, page).Some? ==> Lists(AddRows(found, page).value, listed + page)
  {
    hide Fresh, IdsOf;
    if page == [] {
      assert Fresh(listed, []) by { NothingIsFresh(listed); }
      assert listed + [] == listed;
    } else {
      var n := |page| - 1;
      var row := page[n];
      RowsAre(found, listed, page[..n]);
      assert page == page[..n] + [row];
      FreshSplits(listed, page[..n], row);
      var r := AddRows(found, page[..n]);
      if r.Some? && row.id.Some? {
        ListedIds(r.value, listed + page[..n], row.id.value);
        assert listed + page == listed + page[..n] + [row];
      }
    }
  }

  lemma NothingIsFresh(listed: seq<Row>)
    ensures Fresh(listed, [])
  {
  }

  /** Every row so far, in order. */
  function Listing(pages: seq<seq<Row>>): seq<Row> {
    if pages == [] then [] else Listing(pages[..|pages| - 1]) + pages[|pages| - 1]
  }

  /** The token of the next request: the cursor first, then the last identity of the page before. */
  function NextToken(pages: seq<seq<Row>>, cursor: Option<nat>): Option<nat> {
    if pages == [] then cursor
    else var page := pages[|pages| - 1]; if page == [] then None else page[|page| - 1].id
  }

  /** Full fresh pages, each requested after the last identity of the one before, none ending on the cursor again. */
  ghost predicate Trail(fetch: Option<nat> -> seq<Row>, cursor: Option<nat>, size: nat, pages: seq<seq<Row>>)
    decreases |pages|
  {
    pages != [] ==>
      var n := |pages| - 1;
      && Trail(fetch, cursor, size, pages[..n]) && pages[n] == fetch(NextToken(pages[..n], cursor))
      && |pages[n]| == size && Fresh(Listing(pages[..n]), pages[n]) && NextToken(pages, cursor) != cursor
  }

  /** The evidence of a complete read: such a trail, and one fresh page shorter than asked for. */
  ghost predicate Complete(fetch: Option<nat> -> seq<Row>, cursor: Option<nat>, size: nat, pages: seq<seq<Row>>,
                           last: seq<Row>) {
    && Trail(fetch, cursor, size, pages) && last == fetch(NextToken(pages, cursor))
    && |last| < size && Fresh(Listing(pages), last)
  }

  /** The tokens used are the cursor and identities already listed. */
  ghost predicate Reached(fetch: Option<nat> -> seq<Row>, cursor: Option<nat>, size: nat, pages: seq<seq<Row>>,
                          p: Paging) {
    && Trail(fetch, cursor, size, pages) && Lists(p.found, Listing(pages)) && p.token == NextToken(pages, cursor)
    && (cursor.Some? ==> cursor.value in p.tokens)
    && (forall t :: t in p.tokens ==> cursor == Some(t) || t in IdsOf(p.found))
  }

  lemma {:induction false} TrailGrows(fetch: Option<nat> -> seq<Row>, cursor: Option<nat>, size: nat,
                                      pages: seq<seq<Row>>, page: seq<Row>)
    ensures var all := pages + [page];
            && Listing(all) == Listing(pages) + page
            && NextToken(all, cursor) == (if page == [] then None else page[|page| - 1].id)
            && (Trail(fetch, cursor, size, all)
                <==> && Trail(fetch, cursor, size, pages) && page == fetch(NextToken(pages, cursor)) && |page| == size
                     && Fresh(Listing(pages), page) && NextToken(all, cursor) != cursor)
  {
    assert (pages + [page])[..|pages|] == pages;
  }

  /** A page too long or with an identity missing or repeated, and a full page that ends on the cursor, breaks the read;
      a short page ends it; after a full one the next request starts at its last identity. */
  lemma {:induction false} TurnOnPages(fetch: Option<nat> -> seq<Row>, cursor: Option<nat>, size: nat,
                                       pages: seq<seq<Row>>, p: Paging)
    requires Reached(fetch, cursor, size, pages, p) && size >= 1
    ensures var page := fetch(p.token);
            var t := TakePage(p, page, size);
            && (t.Broken? <==> || |page| > size || !Fresh(Listing(pages), page)
                               || (|page| == size && page[size - 1].id == cursor))
            && (t.Finished? ==> && Complete(fetch, cursor, size, pages, page)
                                && Lists(t.found, Listing(pages) + page))
            && (t.More? ==> Reached(fetch, cursor, size, pages + [page], t.paging))
  {
    hide Trail, AddRows, Fresh, Listing, Lists;
    var page := fetch(p.token);
    RowsAre(p.found, Listing(pages), page);
    TrailGrows(fetch, cursor, size, pages, page);
    if |page| == size && Fresh(Listing(pages), page) {
      LastIsUnlisted(p.found, Listing(pages), page);
      var found := AddRows(p.found, page).value;
      ListedGrow(p.found, Listing(pages), found, page);
    }
  }

  lemma LastIsUnlisted(found: seq<Item>, listed: seq<Row>, page: seq<Row>)
    requires Lists(found, listed) && Fresh(listed, page) && page != []
    ensures page[|page| - 1].id.Some? && page[|page| - 1].id.value !in IdsOf(found)
  {
    ListedIds(found, listed, page[|page| - 1].id.value);
  }

  lemma ListedGrow(found: seq<Item>, listed: seq<Row>, more: seq<Item>, page: seq<Row>)
    requires Lists(found, listed) && Lists(more, listed + page) && page != []
    requires page[|page| - 1].id.Some?
    ensures IdsOf(found) <= IdsOf(more) && page[|page| - 1].id.value in IdsOf(more)
  {
    forall x | x in found ensures x.id in IdsOf(more) {
      var i :| 0 <= i < |found| && found[i] == x;
      assert (listed + page)[i] == listed[i];
      ListedIds(more, listed + page, x.id);
    }
    assert (listed + page)[|listed + page| - 1] == page[|page| - 1];
    ListedIds(more, listed + page, page[|page| - 1].id.value);
  }

  lemma {:induction false} AnswerShowsPages(fetch: Option<nat> -> seq<Row>, universe: set<nat>, cursor: Option<nat>,
                                            size: nat, pages: seq<seq<Row>>, p: Paging)
    requires Serves(fetch, universe) && IdsOf(p.found) <= universe && size >= 1
    requires Reached(fetch, cursor, size, pages, p)
    ensures var r := PageFrom(fetch, universe, p, size);
            r.Some? ==> exists all, last :: Complete(fetch, cursor, size, all, last)
                                            && Lists(r.value, Listing(all) + last)
    decreases |universe - IdsOf(p.found)|
  {
    hide Reached, TakePage, Complete, Lists;
    TurnOnPages(fetch, cursor, size, pages, p);
    PageGrows(p, fetch(p.token), size, universe);
    var t := TakePage(p, fetch(p.token), size);
    if t.More? { AnswerShowsPages(fetch, universe, cursor, size, pages + [fetch(p.token)], t.paging); }
  }

  lemma {:induction false} PagingFollows(fetch: Option<nat> -> seq<Row>, universe: set<nat>, cursor: Option<nat>,
                                         size: nat, pages: seq<seq<Row>>) returns (p: Paging)
    requires Serves(fetch, universe) && Trail(fetch, cursor, size, pages) && size >= 1
    ensures Reached(fetch, cursor, size, pages, p) && IdsOf(p.found) <= universe
    ensures PageFrom(fetch, universe, p, size) == PageFrom(fetch, universe, StartAfter(cursor), size)
    decreases |pages|
  {
    hide TakePage, Fresh, Lists, IdsOf;
    p := StartAfter(cursor);
    if pages == [] {
      StartReached(fetch, cursor, size);
    } else {
      var n := |pages| - 1;
      p := PagingFollows(fetch, universe, cursor, size, pages[..n]);
      assert pages == pages[..n] + [pages[n]];
      TurnOnPages(fetch, cursor, size, pages[..n], p);
      PageGrows(p, fetch(p.token), size, universe);
      FullIsNotLast(p, fetch(p.token), size);
      p := TakePage(p, fetch(p.token), size).paging;
    }
  }

  lemma FullIsNotLast(p: Paging, page: seq<Row>, size: nat)
    ensures TakePage(p, page, size).Finished? ==> |page| < size
    ensures TakePage(p, page, size).More? ==> |page| == size
  {
  }

  lemma StartReached(fetch: Option<nat> -> seq<Row>, cursor: Option<nat>, size: nat)
    ensures Reached(fetch, cursor, size, [], StartAfter(cursor))
    ensures IdsOf(StartAfter(cursor).found) == {}
  {
  }

  lemma {:induction false} PagesAreAnswered(fetch: Option<nat> -> seq<Row>, universe: set<nat>, cursor: Option<nat>,
                                            size: nat, pages: seq<seq<Row>>, last: seq<Row>)
    requires Serves(fetch, universe) && Complete(fetch, cursor, size, pages, last)
    ensures var r := PageFrom(fetch, universe, StartAfter(cursor), size);
            r.Some? && Lists(r.value, Listing(pages) + last)
  {
    hide TakePage, Trail, Fresh, Lists, IdsOf;
    var p := PagingFollows(fetch, universe, cursor, size, pages);
    TurnOnPages(fetch, cursor, size, pages, p);
    FullIsNotLast(p, last, size);
  }

  /** The read answers exactly when its pages are evidence of a complete list, and then with every row in order. */
  lemma {:induction false} AnsweredExactly(fetch: Option<nat> -> seq<Row>, universe: set<nat>, cursor: Option<nat>,
                                           size: nat)
    requires Serves(fetch, universe) && size >= 1
    ensures var r := PageFrom(fetch, universe, StartAfter(cursor), size);
            && (r.Some? <==> exists pages, last :: Complete(fetch, cursor, size, pages, last))
            && forall pages, last :: Complete(fetch, cursor, size, pages, last) ==>
                 r.Some? && Lists(r.value, Listing(pages) + last)
  {
    hide Complete, Lists, Reached, IdsOf;
    StartReached(fetch, cursor, size);
    AnswerShowsPages(fetch, universe, cursor, size, [], StartAfter(cursor));
    forall pages, last | Complete(fetch, cursor, size, pages, last)
      ensures var r := PageFrom(fetch, universe, StartAfter(cursor), size);
              r.Some? && Lists(r.value, Listing(pages) + last)
    {
      PagesAreAnswered(fetch, universe, cursor, size, pages, last);
    }
  }

  lemma CompleteAsksForSome(fetch: Option<nat> -> seq<Row>, cursor: Option<nat>, size: nat)
    ensures forall pages, last :: Complete(fetch, cursor, size, pages, last) ==> size > 0
  {
  }

  /** A page size outside 1 to 100 is refused. */
  method PaginateActivities(fetch: Option<nat> -> seq<Row>, size: nat, cursor: Option<nat>, ghost universe: set<nat>)
    returns (r: Option<seq<Item>>)
    requires Serves(fetch, universe)
    ensures !(1 <= size <= 100) ==> r == None
    ensures 1 <= size <= 100 ==> r == PageFrom(fetch, universe, StartAfter(cursor), size)
    ensures r.Some? <==> 1 <= size <= 100 && exists pages, last :: Complete(fetch, cursor, size, pages, last)
    ensures forall pages, last :: Complete(fetch, cursor, size, pages, last) && size <= 100 ==>
              r.Some? && Lists(r.value, Listing(pages) + last)
  {
    hide Complete, Lists;
    if !(1 <= size <= 100) {
      assert forall pages, last :: Complete(fetch, cursor, size, pages, last) ==> size > 0 by {
        CompleteAsksForSome(fetch, cursor, size);
      }
      return None;
    }
    AnsweredExactly(fetch, universe, cursor, size);
    var found: seq<Item>, token, tokens: set<nat> := [], cursor, if cursor.Some? then {cursor.value} else {};
    while true
      invariant IdsOf(found) <= universe
      invariant PageFrom(fetch, universe, Paging(found, token, tokens), size)
             == PageFrom(fetch, universe, StartAfter(cursor), size)
      decreases |universe - IdsOf(found)|
    {
      var page := fetch(token);
      ghost var was := Paging(found, token, tokens);
      PageGrows(was, page, size, universe);
      if |page| > size { return None; }
      var added := AddPage(found, page);
      if added.None? { return None; }
      found := added.value;
      if |page| < size { return Some(found); }
      token := page[|page| - 1].id;
      if token.None? || token.value in tokens { return None; }
      tokens := tokens + {token.value};
      assert TakePage(was, page, size) == More(Paging(found, token, tokens));
    }
  }

  method AddPage(found: seq<Item>, page: seq<Row>) returns (r: Option<seq<Item>>)
    ensures r == AddRows(found, page)
  {
    var items := found;
    var seen := IdsOf(found);
    for n := 0 to |page|
      invariant AddRows(found, page[..n]) == Some(items) && seen == IdsOf(items)
    {
      assert page[..n + 1][..n] == page[..n];
      var row := page[n];
      if row.id.None? || row.id.value in seen {
        BreakSpreads(found, page, n + 1);
        return None;
      }
      seen := seen + {row.id.value};
      assert IdsOf(items + [Item(row.id.value, row.body)]) == IdsOf(items) + {row.id.value};
      items := items + [Item(row.id.value, row.body)];
    }
    assert page[..|page|] == page;
    r := Some(items);
  }

  lemma {:induction false} BreakSpreads(found: seq<Item>, rows: seq<Row>, n: nat)
    requires n <= |rows| && AddRows(found, rows[..n]).None?
    ensures AddRows(found, rows).None?
    decreases |rows| - n
  {
    if n == |rows| {
      assert rows[..n] == rows;
    } else {
      assert rows[..n + 1][..n] == rows[..n];
      BreakSpreads(found, rows, n + 1);
    }
  }

  // ---- the simulator's page server ----

  datatype Activity = Activity(id: nat, kind: nat, visibleAt: int, sortTime: int)

  /** The query: which kinds (all when absent), strictly after which creation time. */
  datatype Query = Query(kinds: Option<set<nat>>, since: Option<int>)

  predicate Matches(a: Activity, q: Query, now: int) {
    && a.visibleAt <= now
    && (q.kinds.Some? ==> a.kind in q.kinds.value)
    && (q.since.Some? ==> a.sortTime > q.since.value)
  }

  function Inserted(items: seq<Item>, x: Item): seq<Item> {
    if items == [] || x.id < items[0].id then [x] + items else [items[0]] + Inserted(items[1..], x)
  }

  /** The visible matching activities in ascending id order. */
  function Visible(all: seq<Activity>, q: Query, now: int): seq<Item> {
    if all == [] then []
    else
      var rest := Visible(all[1..], q, now);
      if Matches(all[0], q, now) then Inserted(rest, Item(all[0].id, all[0].kind)) else rest
  }

  /** How many leading items are not after the token. */
  function Skip(items: seq<Item>, token: Option<nat>): (k: nat)
    ensures k <= |items|
    ensures k < |items| ==> token.None? || items[k].id > token.value
    ensures token.None? ==> k == 0
    ensures forall i :: 0 <= i < k ==> items[i].id <= token.value
  {
    if items == [] || token.None? || items[0].id > token.value then 0 else 1 + Skip(items[1..], token)
  }

  function RowsOf(items: seq<Item>): seq<Row> {
    seq(|items|, i requires 0 <= i < |items| => Row(Some(items[i].id), items[i].body))
  }

  function PageAfter(items: seq<Item>, token: Option<nat>, size: nat): seq<Row> {
    var k := Skip(items, token);
    RowsOf(items[k..if k + size <= |items| then k + size else |items|])
  }

  function Server(items: seq<Item>, size: nat): Option<nat> -> seq<Row> {
    token => PageAfter(items, token, size)
  }

  predicate Ascending(items: seq<Item>) {
    forall i, j :: 0 <= i < j < |items| ==> items[i].id < items[j].id
  }

  predicate DistinctIds(all: seq<Activity>) {
    forall i, j :: 0 <= i < j < |all| ==> all[i].id != all[j].id
  }

  lemma {:induction false} InsertedIs(items: seq<Item>, x: Item)
    requires Ascending(items) && forall y :: y in items ==> y.id != x.id
    ensures Ascending(Inserted(items, x)) && forall y :: y in Inserted(items, x) <==> y in items || y == x
  {
    if items != [] && x.id > items[0].id {
      InsertedIs(items[1..], x);
      assert items == [items[0]] + items[1..];
      var rest := Inserted(items[1..], x);
      forall j | 0 <= j < |rest| ensures items[0].id < rest[j].id {
        assert rest[j] in rest;
        if rest[j] != x {
          assert rest[j] in items[1..];
          var i :| 0 <= i < |items[1..]| && items[1..][i] == rest[j];
          assert items[1..][i] == items[i + 1];
        }
      }
    }
  }

  /** The server's order: exactly the visible matching activities, each once, ascending. */
  lemma {:induction false} VisibleIs(all: seq<Activity>, q: Query, now: int)
    requires DistinctIds(all)
    ensures var items := Visible(all, q, now);
            && Ascending(items)
            && forall x :: x in items <==> exists a :: a in all && Matches(a, q, now) && x == Item(a.id, a.kind)
  {
    if all != [] {
      VisibleIs(all[1..], q, now);
      var rest := Visible(all[1..], q, now);
      var x := Item(all[0].id, all[0].kind);
      forall y | y in rest ensures y.id != x.id {
        var a :| a in all[1..] && Matches(a, q, now) && y == Item(a.id, a.kind);
        var i :| 0 <= i < |all[1..]| && all[1..][i] == a;
        assert all[1..][i] == all[i + 1];
      }
      InsertedIs(rest, x);
      assert all == [all[0]] + all[1..];
      forall y ensures y in Visible(all, q, now) <==> exists a ::
        a in all && Matches(a, q, now) && y == Item(a.id, a.kind) {
        if a :| a in all && Matches(a, q, now) && y == Item(a.id, a.kind) {
          if a != all[0] { assert a in all[1..]; }
        }
        if y in Visible(all, q, now) && y !in rest { assert all[0] in all; }
        if y in rest {
          var a :| a in all[1..] && Matches(a, q, now) && y == Item(a.id, a.kind);
          assert a in all;
        }
      }
    }
  }

  // ---- the loop over that server ----

  lemma ServerServes(items: seq<Item>, size: nat)
    ensures Serves(Server(items, size), IdsOf(items))
  {
    forall token, row | row in Server(items, size)(token) && row.id.Some? ensures row.id.value in IdsOf(items) {
      var k := Skip(items, token);
      var part := items[k..if k + size <= |items| then k + size else |items|];
      var i :| 0 <= i < |part| && RowsOf(part)[i] == row;
      assert part[i] == items[k + i] && items[k + i] in items;
    }
  }

  lemma {:induction false} SkipAt(items: seq<Item>, k: nat)
    requires Ascending(items) && 0 < k <= |items|
    ensures Skip(items, Some(items[k - 1].id)) == k
  {
    assert forall i :: 0 <= i < k ==> items[i].id <= items[k - 1].id;
    assert k < |items| ==> items[k - 1].id < items[k].id;
  }

  lemma {:induction false} AddSlice(items: seq<Item>, lo: nat, k: nat, j: nat)
    requires Ascending(items) && lo <= k <= j <= |items|
    ensures AddRows(items[lo..k], RowsOf(items[k..j])) == Some(items[lo..j])
    decreases j
  {
    if j == k {
      assert RowsOf(items[k..j]) == [];
    } else {
      var n := j - 1;
      AddSlice(items, lo, k, n);
      assert RowsOf(items[k..j])[..n - k] == RowsOf(items[k..n]);
      assert items[lo..j] == items[lo..n] + [items[n]];
      assert items[n].id !in IdsOf(items[lo..n]);
    }
  }

  predicate TokensBefore(items: seq<Item>, k: nat, tokens: set<nat>)
    requires k <= |items|
  {
    forall t :: t in tokens ==> k < |items| ==> t < items[k].id
  }

  lemma SliceInside(items: seq<Item>, lo: nat, k: nat)
    requires lo <= k <= |items|
    ensures IdsOf(items[lo..k]) <= IdsOf(items)
  {
    forall x | x in items[lo..k] ensures x in items {
      var i :| 0 <= i < |items[lo..k]| && items[lo..k][i] == x;
      assert items[lo + i] == x;
    }
  }

  lemma TokensAdvance(items: seq<Item>, size: nat, k: nat, tokens: set<nat>)
    requires Ascending(items) && size >= 1 && k + size <= |items| && TokensBefore(items, k, tokens)
    ensures var last := items[k + size - 1].id;
            last !in tokens && TokensBefore(items, k + size, tokens + {last})
  {
    assert items[k].id <= items[k + size - 1].id;
    assert k + size < |items| ==> items[k + size - 1].id < items[k + size].id;
  }

  /** One turn of the loop that has read items `lo` to `k`. */
  lemma {:induction false} PageTurn(items: seq<Item>, size: nat, lo: nat, k: nat, token: Option<nat>, tokens: set<nat>)
    requires Ascending(items) && size >= 1 && lo <= k <= |items| && Skip(items, token) == k
             && TokensBefore(items, k, tokens)
    ensures TakePage(Paging(items[lo..k], token, tokens), PageAfter(items, token, size), size)
         == if k + size <= |items|
            then More(Paging(items[lo..k + size], Some(items[k + size - 1].id), tokens + {items[k + size - 1].id}))
            else Finished(items[lo..])
    ensures k + size <= |items| ==> TokensBefore(items, k + size, tokens + {items[k + size - 1].id})
  {
    hide AddRows, Skip, IdsOf, TokensBefore, Ascending;
    var j := if k + size <= |items| then k + size else |items|;
    AddSlice(items, lo, k, j);
    if j == k + size {
      TokensAdvance(items, size, k, tokens);
      assert RowsOf(items[k..j])[size - 1] == Row(Some(items[j - 1].id), items[j - 1].body);
    } else {
      assert items[lo..j] == items[lo..];
    }
  }

  lemma {:induction false} PagesFrom(items: seq<Item>, size: nat, lo: nat, k: nat, token: Option<nat>, tokens: set<nat>)
    requires Ascending(items) && size >= 1 && lo <= k <= |items| && Skip(items, token) == k
             && TokensBefore(items, k, tokens)
    ensures Serves(Server(items, size), IdsOf(items)) && IdsOf(items[lo..k]) <= IdsOf(items)
    ensures PageFrom(Server(items, size), IdsOf(items), Paging(items[lo..k], token, tokens), size) == Some(items[lo..])
    decreases |items| - k
  {
    hide TakePage, PageAfter, Skip, TokensBefore, Ascending, IdsOf;
    ServerServes(items, size);
    SliceInside(items, lo, k);
    PageTurn(items, size, lo, k, token, tokens);
    if k + size <= |items| {
      var last := items[k + size - 1].id;
      SkipAt(items, k + size);
      PagesFrom(items, size, lo, k + size, Some(last), tokens + {last});
    }
  }

  /** For every page size from 1 to 100 the loop ends with exactly the visible matching activities after the cursor,
      ascending, each once. */
  lemma {:induction false} PagingRefinesTheFilter(items: seq<Item>, size: nat, cursor: Option<nat>)
    requires Ascending(items) && 1 <= size <= 100
    ensures Serves(Server(items, size), IdsOf(items))
    ensures PageFrom(Server(items, size), IdsOf(items), StartAfter(cursor), size) == Some(items[Skip(items, cursor)..])
  {
    var k := Skip(items, cursor);
    assert items[k..k] == [];
    PagesFrom(items, size, k, k, cursor, if cursor.Some? then {cursor.value} else {});
  }

  method GetActivities(all: seq<Activity>, q: Query, now: int, size: nat,
                       cursor: Option<nat>) returns (r: Option<seq<Item>>)
    requires DistinctIds(all)
    ensures r.Some? <==> 1 <= size <= 100
    ensures r.Some? ==> Ascending(r.value)
    ensures r.Some? ==> forall x :: x in r.value <==>
              (cursor.Some? ==> x.id > cursor.value) && exists a ::
                && a in all && x == Item(a.id, a.kind) && a.visibleAt <= now
                && (q.kinds.Some? ==> a.kind in q.kinds.value)
                && (q.since.Some? ==> a.sortTime > q.since.value)
  {
    var items := Visible(all, q, now);
    VisibleIs(all, q, now);
    ServerServes(items, size);
    r := PaginateActivities(Server(items, size), size, cursor, IdsOf(items));
    if r.Some? {
      PagingRefinesTheFilter(items, size, cursor);
      Suffix(items, cursor);
    }
    if 1 <= size <= 100 { PagingRefinesTheFilter(items, size, cursor); }
  }

  lemma {:induction false} SkipSplits(items: seq<Item>, cursor: Option<nat>)
    requires Ascending(items)
    ensures forall i :: 0 <= i < |items| ==>
            (Skip(items, cursor) <= i <==> (cursor.Some? ==> items[i].id > cursor.value))
  {
    var k := Skip(items, cursor);
    assert k < |items| ==> forall i :: k <= i < |items| ==> items[k].id <= items[i].id;
  }

  lemma {:induction false} Suffix(items: seq<Item>, cursor: Option<nat>)
    requires Ascending(items)
    ensures forall x :: x in items[Skip(items, cursor)..] <==> x in items && (cursor.Some? ==> x.id > cursor.value)
  {
    hide Skip, Ascending;
    SkipSplits(items, cursor);
    var k := Skip(items, cursor);
    forall x ensures x in items[k..] <==> x in items && (cursor.Some? ==> x.id > cursor.value) {
      if x in items[k..] {
        var i :| 0 <= i < |items[k..]| && items[k..][i] == x;
        assert items[k + i] == x;
      }
      if x in items && (cursor.Some? ==> x.id > cursor.value) {
        var i :| 0 <= i < |items| && items[i] == x;
        assert items[k..][i - k] == x;
      }
    }
  }

  /** Reading up to a cursor and then from it, with any two page sizes, is reading the whole. */
  lemma {:induction false} CursorsConcatenate(items: seq<Item>, size: nat, later: nat, k: nat)
    requires Ascending(items) && 1 <= size <= 100 && 1 <= later <= 100 && 0 < k <= |items|
    ensures Serves(Server(items, size), IdsOf(items)) && Serves(Server(items, later), IdsOf(items))
    ensures var whole := PageFrom(Server(items, size), IdsOf(items), StartAfter(None), size);
            var rest := PageFrom(Server(items, later), IdsOf(items), StartAfter(Some(items[k - 1].id)), later);
            whole.Some? && rest.Some? && whole.value == items && whole.value[..k] + rest.value == whole.value
  {
    PagingRefinesTheFilter(items, size, None);
    PagingRefinesTheFilter(items, later, Some(items[k - 1].id));
    SkipAt(items, k);
    assert items[0..] == items;
    assert items[..k] + items[k..] == items;
  }
}
