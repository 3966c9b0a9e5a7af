/** Every order submitted in [start, end): the census loop, whose cursor also steps back one microsecond per full page
    but which checks less of each page. It is still exact, or refuses. */
module OrderCensus {
  import opened Common
  import opened OpenOrderScan
  import opened OpenOrderCompleteness

  datatype State = State(orders: map<nat, Order>, after: int)

  datatype Facts = Facts(orders: map<nat, Order>, latest: Option<int>, added: nat)

  datatype Outcome = Incomplete | Done(orders: map<nat, Order>) | Onward(state: State)

  function OneRow(f: Facts, row: Row, after: int, end: int): Option<Facts> {
    if row.id.None? || row.at.None? || !(after <= row.at.value < end) then None
    else
      var id := row.id.value;
      Some(Facts(f.orders[id := Order(id, row.at, row.detail)],
                 if f.latest.Some? && f.latest.value >= row.at.value then f.latest else row.at,
                 f.added + (if id in f.orders then 0 else 1)))
  }

  function AllRows(f: Facts, rows: seq<Row>, after: int, end: int): Option<Facts> {
    if rows == [] then Some(f)
    else
      var n := |rows| - 1;
      match AllRows(f, rows[..n], after, end)
      case None => None
      case Some(g) => OneRow(g, rows[n], after, end)
  }

  function TakePage(s: State, rows: seq<Row>, end: int): Outcome {
    if |rows| > PAGE_LIMIT then Incomplete
    else match AllRows(Facts(s.orders, None, 0), rows, s.after, end)
      case None => Incomplete
      case Some(f) =>
        if |rows| < PAGE_LIMIT then Done(f.orders)
        else if f.added == 0 || f.latest.None? then Incomplete
        else Onward(State(f.orders, f.latest.value - 1))
  }

  // ---- the loop ----

  ghost predicate Serves(fetch: int -> seq<Row>, universe: set<nat>) {
    forall after, row :: row in fetch(after) && row.id.Some? ==> row.id.value in universe
  }

  lemma {:induction false} RowsGrow(f: Facts, rows: seq<Row>, after: int, end: int, universe: set<nat>)
    requires f.orders.Keys <= universe && Keyed(f.orders)
    requires forall row :: row in rows && row.id.Some? ==> row.id.value in universe
    ensures var r := AllRows(f, rows, after, end);
            r.Some? ==> && f.orders.Keys <= r.value.orders.Keys <= universe && Keyed(r.value.orders)
                        && f.added <= r.value.added
                        && |r.value.orders.Keys| == |f.orders.Keys| + (r.value.added - f.added)
  {
    if rows != [] {
      var n := |rows| - 1;
      assert rows[n] in rows;
      RowsGrow(f, rows[..n], after, end, universe);
      var g := AllRows(f, rows[..n], after, end);
      if g.Some? && OneRow(g.value, rows[n], after, end).Some? {
        assert OneRow(g.value, rows[n], after, end).value.orders.Keys == g.value.orders.Keys + {rows[n].id.value};
      }
    }
  }

  lemma PageGrows(s: State, rows: seq<Row>, end: int, universe: set<nat>)
    requires s.orders.Keys <= universe && Keyed(s.orders)
    requires forall row :: row in rows && row.id.Some? ==> row.id.value in universe
    ensures var t := TakePage(s, rows, end);
            && (t.Onward? ==> t.state.orders.Keys <= universe && Keyed(t.state.orders)
                              && |universe - t.state.orders.Keys| < |universe - s.orders.Keys|)
            && (t.Done? ==> Keyed(t.orders))
  {
    RowsGrow(Facts(s.orders, None, 0), rows, s.after, end, universe);
    var t := TakePage(s, rows, end);
    if t.Onward? {
      Complement(universe, s.orders.Keys);
      Complement(universe, t.state.orders.Keys);
    }
  }

  ghost function FetchFrom(fetch: int -> seq<Row>, universe: set<nat>, s: State, end: int): Option<map<nat, Order>>
    requires Serves(fetch, universe) && s.orders.Keys <= universe && Keyed(s.orders)
    decreases |universe - s.orders.Keys|
  {
    match TakePage(s, fetch(s.after), end)
    case Incomplete => None
    case Done(orders) => Some(orders)
    case Onward(next) =>
      PageGrows(s, fetch(s.after), end, universe);
      FetchFrom(fetch, universe, next, end)
  }

  // ---- what a page and a census must show, said of the rows alone ----

  /** Every row has an id and a stamp inside the request. */
  ghost predicate RowsInside(rows: seq<Row>, after: int, end: int) {
    forall i :: 0 <= i < |rows| ==> rows[i].id.Some? && rows[i].at.Some? && after <= rows[i].at.value < end
  }

  /** The order is listed, and its id is listed no more after that. */
  ghost predicate LastListed(rows: seq<Row>, o: Order) {
    exists i :: && 0 <= i < |rows| && rows[i] == Row(Some(o.id), o.at, o.detail)
                && forall j :: i < j < |rows| ==> rows[j].id != Some(o.id)
  }

  /** The dictionary holds every listed order as it was listed last. */
  ghost predicate Holds(orders: map<nat, Order>, rows: seq<Row>) {
    Keyed(orders) && forall o :: Has(orders, o) <==> LastListed(rows, o)
  }

  lemma LastListedSplits(rows: seq<Row>, row: Row, o: Order)
    requires row.id.Some?
    ensures LastListed(rows + [row], o)
            <==> if row.id == Some(o.id) then row == Row(Some(o.id), o.at, o.detail) else LastListed(rows, o)
  {
    var all := rows + [row];
    assert all[|rows|] == row && forall i :: 0 <= i < |rows| ==> all[i] == rows[i];
    if LastListed(all, o) {
      var i :| && 0 <= i < |all| && all[i] == Row(Some(o.id), o.at, o.detail)
               && forall j :: i < j < |all| ==> all[j].id != Some(o.id);
      assert row.id != Some(o.id) ==> i < |rows| && rows[i] == all[i];
    }
  }

  lemma HoldsOneMore(orders: map<nat, Order>, rows: seq<Row>, row: Row)
    requires Holds(orders, rows) && row.id.Some?
    ensures Holds(orders[row.id.value := Order(row.id.value, row.at, row.detail)], rows + [row])
  {
    hide LastListed;
    var after := orders[row.id.value := Order(row.id.value, row.at, row.detail)];
    forall o ensures Has(after, o) <==> LastListed(rows + [row], o) {
      LastListedSplits(rows, row, o);
      assert Has(orders, o) <==> LastListed(rows, o);
    }
  }

  /** The loop's facts after these rows of a page, when `seen` was listed before it. */
  ghost predicate FactsOf(f: Facts, orders: map<nat, Order>, seen: seq<Row>, rows: seq<Row>) {
    && Holds(f.orders, seen + rows) && IsLatestStamp(f.latest, rows)
    && (f.added > 0 <==> BringsNew(orders, rows))
    && (forall id :: id in f.orders <==> id in orders || exists i :: 0 <= i < |rows| && rows[i].id == Some(id))
  }

  lemma RowAdds(f: Facts, orders: map<nat, Order>, seen: seq<Row>, rows: seq<Row>, row: Row, after: int, end: int)
    requires FactsOf(f, orders, seen, rows) && OneRow(f, row, after, end).Some?
    ensures FactsOf(OneRow(f, row, after, end).value, orders, seen, rows + [row])
  {
    hide Holds;
    HoldsOneMore(f.orders, seen + rows, row);
    var all := rows + [row];
    assert seen + rows + [row] == seen + all;
    assert all[|rows|] == row && forall i :: 0 <= i < |rows| ==> all[i] == rows[i];
  }

  lemma InsideSplits(rows: seq<Row>, row: Row, after: int, end: int)
    ensures RowsInside(rows + [row], after, end)
            <==> RowsInside(rows, after, end) && row.id.Some? && row.at.Some? && after <= row.at.value < end
  {
    var all := rows + [row];
    assert all[|rows|] == row && forall i :: 0 <= i < |rows| ==> all[i] == rows[i];
  }

  lemma {:induction false} RowsAre(orders: map<nat, Order>, seen: seq<Row>, rows: seq<Row>, after: int, end: int)
    requires Holds(orders, seen)
    ensures var r := AllRows(Facts(orders, None, 0), rows, after, end);
            && (r.Some? <==> RowsInside(rows, after, end))
            && (r.Some? ==> FactsOf(r.value, orders, seen, rows))
  {
    hide Holds, FactsOf, RowsInside;
    if rows == [] {
      NoRowsYet(orders, seen, after, end);
    } else {
      var n := |rows| - 1;
      assert rows == rows[..n] + [rows[n]];
      RowsAre(orders, seen, rows[..n], after, end);
      InsideSplits(rows[..n], rows[n], after, end);
      var r := AllRows(Facts(orders, None, 0), rows[..n], after, end);
      if r.Some? && OneRow(r.value, rows[n], after, end).Some? {
        RowAdds(r.value, orders, seen, rows[..n], rows[n], after, end);
      }
    }
  }

  lemma NoRowsYet(orders: map<nat, Order>, seen: seq<Row>, after: int, end: int)
    requires Holds(orders, seen)
    ensures FactsOf(Facts(orders, None, 0), orders, seen, []) && RowsInside([], after, end)
  {
    assert seen + [] == seen;
  }

  /** A page too long or with a row outside the request, and a full page with nothing new, is a failure; a short page
      ends the census; a full one continues one microsecond before its latest stamp. */
  lemma TurnIs(s: State, seen: seq<Row>, rows: seq<Row>, end: int)
    requires Holds(s.orders, seen)
    ensures var t, full := TakePage(s, rows, end), |rows| == PAGE_LIMIT;
            && (t.Incomplete? <==> || |rows| > PAGE_LIMIT || !RowsInside(rows, s.after, end)
                                   || (full && !BringsNew(s.orders, rows)))
            && (t.Done? ==> !full && Holds(t.orders, seen + rows))
            && (t.Onward? ==> && full && Holds(t.state.orders, seen + rows)
                              && IsLatestStamp(Some(t.state.after + 1), rows))
  {
    hide Holds, RowsInside, AllRows, BringsNew;
    RowsAre(s.orders, seen, rows, s.after, end);
    if |rows| == PAGE_LIMIT && RowsInside(rows, s.after, end) { InsideAt(rows, s.after, end); }
  }

  lemma InsideAt(rows: seq<Row>, after: int, end: int)
    requires RowsInside(rows, after, end) && rows != []
    ensures rows[0].at.Some?
  {
  }

  // ---- the whole census, said of the pages it requested ----

  datatype Answered = Answered(after: int, rows: seq<Row>)

  /** Every row so far, in the order it was listed. */
  function Listing(pages: seq<Answered>): seq<Row> {
    if pages == [] then [] else Listing(pages[..|pages| - 1]) + pages[|pages| - 1].rows
  }

  /** A request from the start, or from one microsecond before the latest stamp of the page before it. */
  ghost predicate Follows(pages: seq<Answered>, start: int, after: int) {
    if pages == [] then after == start else IsLatestStamp(Some(after + 1), pages[|pages| - 1].rows)
  }

  ghost predicate ReplySound(fetch: int -> seq<Row>, page: Answered, end: int) {
    page.rows == fetch(page.after) && |page.rows| <= PAGE_LIMIT && RowsInside(page.rows, page.after, end)
  }

  /** The page is full and lists an order no earlier page does. */
  ghost predicate FullAndNew(pages: seq<Answered>, page: Answered) {
    && |page.rows| == PAGE_LIMIT
    && exists i :: && 0 <= i < |page.rows| && page.rows[i].id.Some?
                   && forall row :: row in Listing(pages) ==> row.id != page.rows[i].id
  }

  /** Full pages, each sound, new and requested after the one before. */
  ghost predicate Trail(fetch: int -> seq<Row>, start: int, end: int, pages: seq<Answered>)
    decreases |pages|
  {
    pages != [] ==>
      var n := |pages| - 1;
      && Trail(fetch, start, end, pages[..n]) && Follows(pages[..n], start, pages[n].after)
      && ReplySound(fetch, pages[n], end) && FullAndNew(pages[..n], pages[n])
  }

  /** The evidence of a complete census: such a trail, and one short sound page. */
  ghost predicate Complete(fetch: int -> seq<Row>, start: int, end: int, pages: seq<Answered>, last: Answered) {
    && Trail(fetch, start, end, pages) && Follows(pages, start, last.after)
    && ReplySound(fetch, last, end) && |last.rows| < PAGE_LIMIT
  }

  ghost predicate Reached(fetch: int -> seq<Row>, start: int, end: int, pages: seq<Answered>, s: State) {
    Trail(fetch, start, end, pages) && Follows(pages, start, s.after) && Holds(s.orders, Listing(pages))
  }

  lemma {:induction false} NewIffNotHeld(orders: map<nat, Order>, pages: seq<Answered>, page: Answered)
    requires Holds(orders, Listing(pages)) && |page.rows| == PAGE_LIMIT
    requires forall row :: row in Listing(pages) ==> row.id.Some?
    ensures BringsNew(orders, page.rows) <==> FullAndNew(pages, page)
  {
    forall id: nat ensures id in orders <==> exists row :: row in Listing(pages) && row.id == Some(id) {
      if id in orders {
        assert Has(orders, orders[id]);
      }
      if row :| row in Listing(pages) && row.id == Some(id) {
        SomeLastListing(Listing(pages), id);
      }
    }
  }

  lemma {:induction false} SomeLastListing(rows: seq<Row>, id: nat)
    requires (exists row :: row in rows && row.id == Some(id)) && forall row :: row in rows ==> row.id.Some?
    ensures exists o: Order :: o.id == id && LastListed(rows, o)
  {
    var n := |rows| - 1;
    var row := rows[n];
    assert rows == rows[..n] + [row];
    if row.id == Some(id) {
      LastListedSplits(rows[..n], row, Order(id, row.at, row.detail));
    } else {
      var x :| x in rows && x.id == Some(id);
      assert x in rows[..n];
      SomeLastListing(rows[..n], id);
      var o: Order :| o.id == id && LastListed(rows[..n], o);
      LastListedSplits(rows[..n], row, o);
    }
  }

  lemma {:induction false} TrailListsIds(fetch: int -> seq<Row>, start: int, end: int, pages: seq<Answered>)
    requires Trail(fetch, start, end, pages)
    ensures forall row :: row in Listing(pages) ==> row.id.Some?
    decreases |pages|
  {
    if pages != [] { TrailListsIds(fetch, start, end, pages[..|pages| - 1]); }
  }

  lemma {:induction false} TrailGrows(fetch: int -> seq<Row>, start: int, end: int, pages: seq<Answered>,
                                      page: Answered)
    requires Trail(fetch, start, end, pages) && Follows(pages, start, page.after)
    requires ReplySound(fetch, page, end) && FullAndNew(pages, page)
    ensures Trail(fetch, start, end, pages + [page])
  {
    assert (pages + [page])[..|pages|] == pages;
  }

  /** One turn of the loop, said of the pages. */
  lemma {:induction false} TurnOnPages(fetch: int -> seq<Row>, start: int, end: int, pages: seq<Answered>, s: State)
    requires Reached(fetch, start, end, pages, s)
    ensures var page := Answered(s.after, fetch(s.after));
            var t, all := TakePage(s, page.rows, end), pages + [page];
            && (t.Incomplete? <==> || !ReplySound(fetch, page, end)
                                   || (|page.rows| == PAGE_LIMIT && !FullAndNew(pages, page)))
            && (t.Done? ==> && Complete(fetch, start, end, pages, page)
                            && Holds(t.orders, Listing(pages) + page.rows))
            && (t.Onward? ==> Reached(fetch, start, end, all, t.state))
  {
    hide Trail, TakePage, RowsInside, Holds, FullAndNew, IsLatestStamp, BringsNew;
    var page := Answered(s.after, fetch(s.after));
    var t, all := TakePage(s, page.rows, end), pages + [page];
    TurnIs(s, Listing(pages), page.rows, end);
    TrailListsIds(fetch, start, end, pages);
    if |page.rows| == PAGE_LIMIT { NewIffNotHeld(s.orders, pages, page); }
    assert all[..|pages|] == pages && all[|pages|] == page;
    if t.Onward? { TrailGrows(fetch, start, end, pages, page); }
  }

  /** An answer has its evidence. */
  lemma {:induction false} AnswerShowsPages(fetch: int -> seq<Row>, universe: set<nat>, start: int, end: int,
                                            pages: seq<Answered>, s: State)
    requires Serves(fetch, universe) && s.orders.Keys <= universe && Keyed(s.orders)
    requires Reached(fetch, start, end, pages, s)
    ensures var r := FetchFrom(fetch, universe, s, end);
            r.Some? ==> exists all, last :: Complete(fetch, start, end, all, last)
                                            && Holds(r.value, Listing(all) + last.rows)
    decreases |universe - s.orders.Keys|
  {
    hide Reached, TakePage, Complete, Holds;
    TurnOnPages(fetch, start, end, pages, s);
    PageGrows(s, fetch(s.after), end, universe);
    var t := TakePage(s, fetch(s.after), end);
    if t.Onward? {
      AnswerShowsPages(fetch, universe, start, end, pages + [Answered(s.after, fetch(s.after))], t.state);
    }
  }

  /** The census follows every trail. */
  lemma {:induction false} CensusFollows(fetch: int -> seq<Row>, universe: set<nat>, start: int, end: int,
                                         pages: seq<Answered>) returns (s: State)
    requires Serves(fetch, universe) && Trail(fetch, start, end, pages)
    ensures Reached(fetch, start, end, pages, s) && s.orders.Keys <= universe && Keyed(s.orders)
    ensures FetchFrom(fetch, universe, s, end) == FetchFrom(fetch, universe, State(map[], start), end)
    decreases |pages|
  {
    hide TakePage, Trail, Reached, FullAndNew, Follows, ReplySound;
    s := State(map[], start);
    if pages == [] {
      StartReached(fetch, start, end);
    } else {
      var n := |pages| - 1;
      TrailEnds(fetch, start, end, pages);
      s := CensusFollows(fetch, universe, start, end, pages[..n]);
      SameRequest(fetch, start, end, pages[..n], s, pages[n]);
      assert pages == pages[..n] + [pages[n]];
      TurnOnPages(fetch, start, end, pages[..n], s);
      PageGrows(s, fetch(s.after), end, universe);
      FullIsNotDone(s, fetch(s.after), end);
      s := TakePage(s, fetch(s.after), end).state;
    }
  }

  lemma {:induction false} TrailEnds(fetch: int -> seq<Row>, start: int, end: int, pages: seq<Answered>)
    requires Trail(fetch, start, end, pages) && pages != []
    ensures var n := |pages| - 1;
            && Trail(fetch, start, end, pages[..n]) && Follows(pages[..n], start, pages[n].after)
            && ReplySound(fetch, pages[n], end) && FullAndNew(pages[..n], pages[n]) && |pages[n].rows| == PAGE_LIMIT
  {
  }

  lemma SameRequest(fetch: int -> seq<Row>, start: int, end: int, pages: seq<Answered>, s: State, page: Answered)
    requires Reached(fetch, start, end, pages, s) && Follows(pages, start, page.after) && ReplySound(fetch, page, end)
    ensures page == Answered(s.after, fetch(s.after))
  {
    hide Trail, RowsInside, Holds;
    OneLatest(pages, start, s.after, page.after);
  }

  lemma OneLatest(pages: seq<Answered>, start: int, a: int, b: int)
    requires Follows(pages, start, a) && Follows(pages, start, b)
    ensures a == b
  {
  }

  /** A full page is never the end. */
  lemma FullIsNotDone(s: State, rows: seq<Row>, end: int)
    requires |rows| == PAGE_LIMIT
    ensures !TakePage(s, rows, end).Done?
  {
  }

  /** The census answers exactly when its pages are evidence of a complete interval, and then with every order as it was
      listed last. After any trail, a page with a row outside the request or a full page with nothing new is a
      failure. */
  lemma {:induction false} AnsweredExactly(fetch: int -> seq<Row>, universe: set<nat>, start: int, end: int)
    requires Serves(fetch, universe)
    ensures var r := FetchFrom(fetch, universe, State(map[], start), end);
            && (r.Some? <==> exists pages, last :: Complete(fetch, start, end, pages, last))
            && forall pages, last :: Complete(fetch, start, end, pages, last) ==>
                 r.Some? && Holds(r.value, Listing(pages) + last.rows)
  {
    hide Complete, Holds;
    assert Reached(fetch, start, end, [], State(map[], start)) by { StartReached(fetch, start, end); }
    AnswerShowsPages(fetch, universe, start, end, [], State(map[], start));
    forall pages, last | Complete(fetch, start, end, pages, last)
      ensures var r := FetchFrom(fetch, universe, State(map[], start), end);
              r.Some? && Holds(r.value, Listing(pages) + last.rows)
    {
      PagesAreAnswered(fetch, universe, start, end, pages, last);
    }
  }

  lemma StartReached(fetch: int -> seq<Row>, start: int, end: int)
    ensures Reached(fetch, start, end, [], State(map[], start))
  {
  }

  lemma {:induction false} PagesAreAnswered(fetch: int -> seq<Row>, universe: set<nat>, start: int, end: int,
                                            pages: seq<Answered>, last: Answered)
    requires Serves(fetch, universe) && Complete(fetch, start, end, pages, last)
    ensures var r := FetchFrom(fetch, universe, State(map[], start), end);
            r.Some? && Holds(r.value, Listing(pages) + last.rows)
  {
    hide TakePage, Holds, Trail, RowsInside, FullAndNew, IsLatestStamp;
    var s := CensusFollows(fetch, universe, start, end, pages);
    OneLatest(pages, start, s.after, last.after);
    assert last == Answered(s.after, fetch(s.after));
    TurnOnPages(fetch, start, end, pages, s);
    OnwardIsFull(s, last.rows, end);
  }

  lemma OnwardIsFull(s: State, rows: seq<Row>, end: int)
    ensures TakePage(s, rows, end).Onward? ==> |rows| == PAGE_LIMIT
  {
  }

  predicate Ascending(list: seq<Order>) {
    forall i, j :: 0 <= i < j < |list| ==> Before(list[j], list[i])
  }

  /** The order of the answer, written out. */
  lemma OldestFirst(list: seq<Order>, i: nat, j: nat)
    requires Ascending(list) && i < j < |list|
    ensures list[i].at.Some? ==> list[j].at.Some? && list[i].at.value <= list[j].at.value
    ensures list[i].at == list[j].at ==> list[i].id < list[j].id
  {
    assert Before(list[j], list[i]);
  }

  method FetchOrders(fetch: int -> seq<Row>, start: int, end: int,
                     ghost universe: set<nat>) returns (r: Option<seq<Order>>)
    requires Serves(fetch, universe)
    ensures match FetchFrom(fetch, universe, State(map[], start), end)
            case None => r == None
            case Some(orders) =>
              r.Some? && Ascending(r.value) && forall o :: o in r.value <==> o.id in orders && orders[o.id] == o
    ensures r.Some? <==> exists pages, last :: Complete(fetch, start, end, pages, last)
    ensures forall pages, last :: Complete(fetch, start, end, pages, last) ==>
              r.Some? && forall o :: o in r.value <==> LastListed(Listing(pages) + last.rows, o)
  {
    hide TakePage, Ascending, Complete, LastListed;
    AnsweredExactly(fetch, universe, start, end);
    var orders: map<nat, Order>, after := map[], start;
    while true
      invariant orders.Keys <= universe && Keyed(orders)
      invariant FetchFrom(fetch, universe, State(orders, after), end)
                == FetchFrom(fetch, universe, State(map[], start), end)
      decreases |universe - orders.Keys|
    {
      var page := fetch(after);
      PageGrows(State(orders, after), page, end, universe);
      var turn := ReadPage(orders, after, page, end);
      match turn {
        case Incomplete => return None;
        case Done(found) =>
          var sorted := EarliestFirst(found);
          return Some(sorted);
        case Onward(next) => orders, after := next.orders, next.after;
      }
    }
  }

  method EarliestFirst(orders: map<nat, Order>) returns (sorted: seq<Order>)
    requires Keyed(orders)
    ensures Ascending(sorted) && forall o :: o in sorted <==> o.id in orders && orders[o.id] == o
  {
    var list := SortOrders(orders);
    sorted := seq(|list|, i requires 0 <= i < |list| => list[|list| - 1 - i]);
    forall o ensures o in sorted <==> o in list {
      if o in list {
        var i :| 0 <= i < |list| && list[i] == o;
        assert sorted[|list| - 1 - i] == o;
      }
    }
  }

  method ReadPage(orders: map<nat, Order>, after: int, page: seq<Row>, end: int) returns (t: Outcome)
    ensures t == TakePage(State(orders, after), page, end)
  {
    if |page| > PAGE_LIMIT { return Incomplete; }
    var found: map<nat, Order>, latest: Option<int>, added: nat := orders, None, 0;
    for n := 0 to |page|
      invariant AllRows(Facts(orders, None, 0), page[..n], after, end) == Some(Facts(found, latest, added))
    {
      assert page[..n + 1][..n] == page[..n];
      var row := page[n];
      if row.id.None? || row.at.None? || row.at.value < after || row.at.value >= end {
        RefusalSpreads(Facts(orders, None, 0), page, n + 1, after, end);
        return Incomplete;
      }
      if latest.None? || row.at.value > latest.value { latest := row.at; }
      if row.id.value !in found { added := added + 1; }
      found := found[row.id.value := Order(row.id.value, row.at, row.detail)];
    }
    assert page[..|page|] == page;
    if |page| < PAGE_LIMIT { return Done(found); }
    if added == 0 || latest.None? { return Incomplete; }
    t := Onward(State(found, latest.value - 1));
  }

  lemma {:induction false} RefusalSpreads(f: Facts, rows: seq<Row>, n: nat, after: int, end: int)
    requires n <= |rows| && AllRows(f, rows[..n], after, end).None?
    ensures AllRows(f, rows, after, end).None?
    decreases |rows| - n
  {
    if n == |rows| {
      assert rows[..n] == rows;
    } else {
      assert rows[..n + 1][..n] == rows[..n];
      RefusalSpreads(f, rows, n + 1, after, end);
    }
  }

  // ---- the honest server ----

  /** The orders stamped before the end. */
  function Until(pop: seq<Stored>, end: int): seq<Stored> {
    pop[..First(pop, end, true)]
  }

  /** The orders stamped in [start, end). */
  function Interval(pop: seq<Stored>, start: int, end: int): seq<Stored> {
    var part := Until(pop, end);
    part[First(part, start, true)..]
  }

  /** `after` is inclusive and `until` exclusive, both to the microsecond. */
  function ServeUntil(pop: seq<Stored>, end: int): int -> seq<Row> {
    after => Page(Until(pop, end), Some(after), true)
  }

  lemma {:induction false} FirstSplits(pop: seq<Stored>, at: int)
    requires Population(pop)
    ensures forall i :: 0 <= i < |pop| ==> (i < First(pop, at, true) <==> Us(pop[i].ns) < at)
  {
    var k := First(pop, at, true);
    forall i | 0 <= i < |pop| ensures i < k <==> Us(pop[i].ns) < at {
      WithinStamp(pop[i].ns, at, true);
      if i >= k {
        WithinStamp(pop[k].ns, at, true);
        assert pop[k].ns <= pop[i].ns;
        UsMonotone(pop[k].ns, pop[i].ns);
      }
    }
  }

  lemma PartIsAPopulation(pop: seq<Stored>, lo: nat, hi: nat)
    requires lo <= hi <= |pop| && Population(pop)
    ensures Population(pop[lo..hi])
  {
  }

  lemma IntervalIs(pop: seq<Stored>, start: int, end: int)
    requires Population(pop)
    ensures Population(Until(pop, end)) && Population(Interval(pop, start, end))
    ensures forall s :: s in Interval(pop, start, end) <==> s in pop && start <= Us(s.ns) < end
  {
    hide First, Us, Population;
    var part := Until(pop, end);
    PartIsAPopulation(pop, 0, |part|);
    assert pop[0..|part|] == part;
    FirstSplits(pop, end);
    FirstSplits(part, start);
    var lo := First(part, start, true);
    PartIsAPopulation(part, lo, |part|);
    assert part[lo..|part|] == part[lo..];
    forall s | s in pop && start <= Us(s.ns) < end ensures s in Interval(pop, start, end) {
      var i :| 0 <= i < |pop| && pop[i] == s;
      assert part[i] == s;
      assert part[lo..][i - lo] == s;
    }
    forall s | s in Interval(pop, start, end) ensures s in pop && start <= Us(s.ns) < end {
      var i :| 0 <= i < |part[lo..]| && part[lo..][i] == s;
      assert part[lo + i] == s && pop[lo + i] == s;
    }
  }

  lemma {:induction false} FirstShift(pop: seq<Stored>, lo: nat, after: int)
    requires lo <= |pop| && forall i :: 0 <= i < lo ==> !Within(pop[i].ns, after, true)
    ensures First(pop, after, true) == lo + First(pop[lo..], after, true)
  {
    if lo == 0 {
      assert pop[0..] == pop;
    } else {
      assert pop[1..][lo - 1..] == pop[lo..];
      FirstShift(pop[1..], lo - 1, after);
    }
  }

  /** From any request at or after the start, the server's page is a page of the interval. */
  lemma PageOfInterval(pop: seq<Stored>, start: int, end: int, after: int)
    requires Population(pop) && start <= after
    ensures ServeUntil(pop, end)(after) == Page(Interval(pop, start, end), Some(after), true)
  {
    hide First, Within, Population;
    var part := Until(pop, end);
    var lo := First(part, start, true);
    var q := part[lo..];
    forall i | 0 <= i < lo ensures !Within(part[i].ns, after, true) {
      FirstBefore(part, start, true);
      OutsideLater(part[i].ns, start, after, true);
    }
    FirstShift(part, lo, after);
    var k := First(q, after, true);
    assert part[lo + k..PageEnd(part, lo + k)] == q[k..PageEnd(q, k)];
  }

  lemma ServesPopulationUntil(pop: seq<Stored>, end: int)
    ensures Serves(ServeUntil(pop, end), Ids(pop))
  {
    var part := Until(pop, end);
    ServesPopulation(part, true);
    forall after, row | row in ServeUntil(pop, end)(after) && row.id.Some? ensures row.id.value in Ids(pop) {
      assert row in Serve(part, true)(Some(after));
      var s :| s in part && s.id == row.id.value;
      assert s in pop;
    }
  }

  // ---- the strict client's page is this client's page ----

  /** A page the strict row loop accepts, all before the end, is read alike by the census loop. */
  lemma {:induction false} ReadAlike(q: seq<Stored>, k: nat, j: nat, e: nat, after: int, end: int)
    requires Population(q) && k <= j <= |q| && k <= e <= |q|
    requires forall i :: k <= i < |q| ==> after <= Us(q[i].ns) < end
    ensures var f := HonestFold(q, k, j, e);
            AllRows(Facts(Seen(q, e), None, 0), Views(q[k..j]), after, end) == Some(Facts(f.orders, f.latest, f.added))
    decreases j
  {
    hide OneRow, Seen, IdsOn, AllRows, HonestFold, Population, Views, View, Us;
    if j == k {
      NothingRead(q, k, e, after, end);
    } else {
      var n := j - 1;
      ReadAlike(q, k, n, e, after, end);
      ViewsStep(q, k, n);
      OneAlike(q, k, n, e, after, end);
      MoreRows(Facts(Seen(q, e), None, 0), Views(q[k..n]), View(q[n]), after, end);
    }
  }

  lemma {:induction false} NothingRead(q: seq<Stored>, k: nat, e: nat, after: int, end: int)
    requires k <= e <= |q|
    ensures var f := HonestFold(q, k, k, e);
            AllRows(Facts(Seen(q, e), None, 0), Views(q[k..k]), after, end) == Some(Facts(f.orders, f.latest, f.added))
  {
    hide Seen, OneRow;
    assert Views(q[k..k]) == [];
  }

  lemma {:induction false} MoreRows(f: Facts, rows: seq<Row>, row: Row, after: int, end: int)
    requires AllRows(f, rows, after, end).Some?
    ensures AllRows(f, rows + [row], after, end) == OneRow(AllRows(f, rows, after, end).value, row, after, end)
  {
    assert (rows + [row])[..|rows|] == rows;
  }

  lemma OneAlike(q: seq<Stored>, k: nat, n: nat, e: nat, after: int, end: int)
    requires Population(q) && k <= n < |q| && k <= e <= |q| && after <= Us(q[n].ns) < end
    ensures var f, g := HonestFold(q, k, n, e), HonestFold(q, k, n + 1, e);
            OneRow(Facts(f.orders, f.latest, f.added), View(q[n]), after, end)
              == Some(Facts(g.orders, g.latest, g.added))
  {
    SeenStep(q, e, n);
    if n > k { assert q[n - 1].ns <= q[n].ns; UsMonotone(q[n - 1].ns, q[n].ns); }
    hide Population, Seen, IdsOn, Us;
  }

  // ---- inside the interval ----

  function StateOf(q: seq<Stored>, e: nat): State
    requires 0 < e <= |q|
  {
    State(Seen(q, e), Latest(q, e) - 1)
  }

  lemma {:induction false} CensusTurn(q: seq<Stored>, e: nat, end: int)
    requires Population(q) && PAGE_LIMIT <= e <= |q| && Settled(q, e, true) && forall s :: s in q ==> Us(s.ns) < end
    ensures var k := First(q, Latest(q, e) - 1, true);
            var t := TakePage(StateOf(q, e), Page(q, Some(Latest(q, e) - 1), true), end);
            && k < e
            && (k + PAGE_LIMIT > |q| ==> t == Done(Seen(q, |q|)))
            && (k + PAGE_LIMIT <= |q| && DenseAt(q, e - PAGE_LIMIT, true) ==> t == Incomplete)
            && (k + PAGE_LIMIT <= |q| && !DenseAt(q, e - PAGE_LIMIT, true) ==>
                  e < k + PAGE_LIMIT && t == Onward(StateOf(q, k + PAGE_LIMIT)) && Settled(q, k + PAGE_LIMIT, true))
  {
    hide AllRows, Seen, First, DenseAt, OpenOrderScan.TakePage, Population, Settled, TakePage, StateAt, Page;
    var after := Latest(q, e) - 1;
    var k := First(q, after, true);
    NextStart(q, e, true);
    HonestTurn(q, e, true);
    forall i | k <= i < |q| ensures Us(q[i].ns) < end { assert q[i] in q; }
    CensusPage(q, e, k, end);
  }

  lemma ViewsLength(part: seq<Stored>)
    ensures |Views(part)| == |part|
  {
  }

  lemma LatestIs(q: seq<Stored>, j: nat)
    ensures 0 < j <= |q| ==> Latest(q, j) == Us(q[j - 1].ns)
  {
  }

  /** What the census loop makes of the page of the interval that starts at `k`. */
  lemma {:induction false} CensusPage(q: seq<Stored>, e: nat, k: nat, end: int)
    requires Population(q) && PAGE_LIMIT <= e <= |q| && k <= e && forall i :: k <= i < |q| ==> Us(q[i].ns) < end
    requires k == First(q, Latest(q, e) - 1, true) && forall i :: k <= i < |q| ==> Us(q[i].ns) >= Latest(q, e) - 1
    ensures TakePage(StateOf(q, e), Page(q, Some(Latest(q, e) - 1), true), end)
         == if k + PAGE_LIMIT > |q| then Done(Seen(q, |q|))
            else if k + PAGE_LIMIT <= e then Incomplete
            else Onward(StateOf(q, k + PAGE_LIMIT))
  {
    hide AllRows, Seen, First, Population, IdsOn, Us, Latest, Views;
    var j := PageEnd(q, k);
    ReadAlike(q, k, j, e, Latest(q, e) - 1, end);
    assert |Views(q[k..j])| == j - k by { ViewsLength(q[k..j]); }
    assert j > k ==> Latest(q, j) == Us(q[j - 1].ns) by { LatestIs(q, j); }
  }

  lemma {:induction false} SeenKeyed(q: seq<Stored>, n: nat)
    requires n <= |q|
    ensures Keyed(Seen(q, n))
  {
    if n > 0 { SeenKeyed(q, n - 1); }
  }

  // ---- below the start: only a refusal ----

  /** Once the cursor is below the start it stays there, every page is full, and the scan can only refuse. */
  lemma {:induction false} BelowTheStart(pop: seq<Stored>, start: int, end: int, s: State)
    requires Population(pop) && s.after < start && s.orders.Keys <= Ids(pop) && Keyed(s.orders)
    requires PAGE_LIMIT <= |Interval(pop, start, end)| && Latest(Interval(pop, start, end), PAGE_LIMIT) == start
    ensures Serves(ServeUntil(pop, end), Ids(pop))
    ensures FetchFrom(ServeUntil(pop, end), Ids(pop), s, end) == None
    decreases |Ids(pop) - s.orders.Keys|
  {
    hide Interval, Until, Population, TakePage, AllRows, Latest, First, Page, Ids, Keyed;
    ServesPopulationUntil(pop, end);
    var rows := ServeUntil(pop, end)(s.after);
    PageGrows(s, rows, end, Ids(pop));
    LowPage(pop, start, end, s.after);
    FullIsNotDone(s, rows, end);
    var t := TakePage(s, rows, end);
    if t.Onward? {
      StaysBelow(s, rows, end, start);
      BelowTheStart(pop, start, end, t.state);
    }
  }

  lemma StaysBelow(s: State, rows: seq<Row>, end: int, bound: int)
    requires TakePage(s, rows, end).Onward? && forall row :: row in rows ==> row.at.Some? && row.at.value <= bound
    ensures TakePage(s, rows, end).state.after < bound
  {
    LatestAtMost(Facts(s.orders, None, 0), rows, s.after, end, bound);
  }

  /** A request below the start gets a full page of orders at or before the start. */
  lemma LowPage(pop: seq<Stored>, start: int, end: int, after: int)
    requires Population(pop) && after < start
    requires PAGE_LIMIT <= |Interval(pop, start, end)| && Latest(Interval(pop, start, end), PAGE_LIMIT) == start
    ensures var rows := ServeUntil(pop, end)(after);
            |rows| == PAGE_LIMIT && forall row :: row in rows ==> row.at.Some? && row.at.value <= start
  {
    hide First, Within, Us;
    var part := Until(pop, end);
    var lo, k := First(part, start, true), First(part, after, true);
    IntervalIs(pop, start, end);
    FirstSplits(part, start);
    FirstSplits(part, after);
    assert k <= lo;
    var last := lo + PAGE_LIMIT - 1;
    assert Interval(pop, start, end)[PAGE_LIMIT - 1] == part[last];
    forall row | row in Views(part[k..k + PAGE_LIMIT]) ensures row.at.Some? && row.at.value <= start {
      var i :| 0 <= i < PAGE_LIMIT && View(part[k..k + PAGE_LIMIT][i]) == row;
      assert part[k..k + PAGE_LIMIT][i] == part[k + i];
      assert part[k + i].ns <= part[last].ns;
      UsMonotone(part[k + i].ns, part[last].ns);
    }
  }

  lemma {:induction false} LatestAtMost(f: Facts, rows: seq<Row>, after: int, end: int, bound: int)
    requires (f.latest.Some? ==> f.latest.value <= bound) && forall row :: row in rows ==>
             row.at.Some? && row.at.value <= bound
    ensures var r := AllRows(f, rows, after, end); r.Some? && r.value.latest.Some? ==> r.value.latest.value <= bound
  {
    if rows != [] {
      assert rows[|rows| - 1] in rows;
      LatestAtMost(f, rows[..|rows| - 1], after, end, bound);
    }
  }

  // ---- the whole census ----

  lemma {:induction false} CensusFrom(pop: seq<Stored>, start: int, end: int, e: nat)
    requires Population(pop)
    requires var q := Interval(pop, start, end);
             && Population(q) && PAGE_LIMIT <= e <= |q| && SparseBefore(q, e - PAGE_LIMIT, true)
             && (Latest(q, e) > start ==> Settled(q, e, true))
    ensures var q := Interval(pop, start, end);
            && Serves(ServeUntil(pop, end), Ids(pop)) && Seen(q, e).Keys <= Ids(pop) && Keyed(Seen(q, e))
            && FetchFrom(ServeUntil(pop, end), Ids(pop), StateOf(q, e), end)
               == if Dense(q, true) then None else Some(Seen(q, |q|))
    decreases |Interval(pop, start, end)| - e
  {
    hide DenseAt, TakePage, Page, First, Seen, Population, Settled, SparseBefore, Dense, Until;
    var q := Interval(pop, start, end);
    ServesPopulationUntil(pop, end);
    SeenInside(pop, start, end, e);
    SeenKeyed(q, e);
    IntervalIs(pop, start, end);
    if Latest(q, e) > start {
      PageOfInterval(pop, start, end, Latest(q, e) - 1);
      CensusTurn(q, e, end);
      StillSparse(q, e, true);
      var k := First(q, Latest(q, e) - 1, true);
      if k + PAGE_LIMIT > |q| {
        assert !Dense(q, true) by { NoneLeft(q, k, true); }
      } else if !DenseAt(q, e - PAGE_LIMIT, true) {
        CensusFrom(pop, start, end, k + PAGE_LIMIT);
      } else {
        DenseSomewhere(q, e - PAGE_LIMIT);
      }
    } else {
      StuckAtTheStart(pop, start, end, e);
      BelowTheStart(pop, start, end, StateOf(q, e));
    }
  }

  lemma DenseSomewhere(q: seq<Stored>, k: nat)
    requires DenseAt(q, k, true)
    ensures Dense(q, true)
  {
  }

  lemma {:induction false} SeenInside(pop: seq<Stored>, start: int, end: int, e: nat)
    requires Population(pop) && e <= |Interval(pop, start, end)|
    ensures Seen(Interval(pop, start, end), e).Keys <= Ids(pop)
  {
    var q := Interval(pop, start, end);
    SeenWithin(q, e);
    IntervalIs(pop, start, end);
  }

  lemma StuckAtTheStart(pop: seq<Stored>, start: int, end: int, e: nat)
    requires Population(pop)
    requires var q := Interval(pop, start, end); PAGE_LIMIT <= e <= |q| && Latest(q, e) <= start
    ensures var q := Interval(pop, start, end);
            Latest(q, e) == start && Latest(q, PAGE_LIMIT) == start && Dense(q, true)
  {
    var q := Interval(pop, start, end);
    IntervalIs(pop, start, end);
    forall i | 0 <= i < e ensures Us(q[i].ns) == start {
      assert q[i] in q;
      assert q[i].ns <= q[e - 1].ns;
      UsMonotone(q[i].ns, q[e - 1].ns);
    }
    WithinStamp(q[0].ns, start - 1, true);
    assert DenseAt(q, 0, true);
  }

  /** The census: exactly the orders stamped in [start, end), or a refusal exactly when a full page of them lies
      within one microsecond step. */
  lemma {:induction false} CensusIsExact(pop: seq<Stored>, start: int, end: int)
    requires Population(pop)
    ensures var q := Interval(pop, start, end);
            && Serves(ServeUntil(pop, end), Ids(pop))
            && FetchFrom(ServeUntil(pop, end), Ids(pop), State(map[], start), end)
               == if Dense(q, true) then None else Some(Seen(q, |q|))
  {
    hide TakePage, DenseAt;
    var q := Interval(pop, start, end);
    ServesPopulationUntil(pop, end);
    IntervalIs(pop, start, end);
    FirstCensusTurn(pop, start, end);
    if PAGE_LIMIT <= |q| {
      SettledAtFirst(q);
      CensusFrom(pop, start, end, PAGE_LIMIT);
    } else {
      assert !Dense(q, true) by { NoneLeft(q, 0, true); }
    }
  }

  lemma SettledAtFirst(q: seq<Stored>)
    requires PAGE_LIMIT <= |q|
    ensures Settled(q, PAGE_LIMIT, true) && SparseBefore(q, 0, true)
  {
  }

  lemma FirstCensusTurn(pop: seq<Stored>, start: int, end: int)
    requires Population(pop)
    ensures var q := Interval(pop, start, end);
            TakePage(State(map[], start), ServeUntil(pop, end)(start), end)
            == if PAGE_LIMIT <= |q| then Onward(StateOf(q, PAGE_LIMIT)) else Done(Seen(q, |q|))
  {
    var q := Interval(pop, start, end);
    IntervalIs(pop, start, end);
    PageOfInterval(pop, start, end, start);
    FirstSplits(q, start);
    hide AllRows, Seen, First, Population, Us, Interval, ServeUntil, TakePage, Page;
    forall i | 0 <= i < |q| ensures start <= Us(q[i].ns) < end { assert q[i] in q; }
    FirstCensusPage(q, start, end);
  }

  lemma {:induction false} FirstCensusPage(q: seq<Stored>, start: int, end: int)
    requires Population(q) && First(q, start, true) == 0 && forall i :: 0 <= i < |q| ==> start <= Us(q[i].ns) < end
    ensures TakePage(State(map[], start), Page(q, Some(start), true), end)
         == if PAGE_LIMIT <= |q| then Onward(StateOf(q, PAGE_LIMIT)) else Done(Seen(q, |q|))
  {
    hide AllRows, Seen, First, Population, IdsOn, Us, Latest, Views;
    var j := PageEnd(q, 0);
    ReadAlike(q, 0, j, 0, start, end);
    NothingSeen(q);
    ViewsLength(q[0..j]);
    LatestIs(q, j);
  }

  lemma {:induction false} NothingSeen(q: seq<Stored>)
    ensures Seen(q, 0) == map[]
  {
  }

  /** The dictionary of the whole interval. */
  lemma SeenInterval(pop: seq<Stored>, start: int, end: int, o: Order)
    requires Population(pop)
    ensures var q := Interval(pop, start, end);
            var seen := Seen(q, |q|);
            (o.id in seen && seen[o.id] == o) <==> exists s :: s in pop && start <= Us(s.ns) < end && o == OrderOf(s)
  {
    var q := Interval(pop, start, end);
    IntervalIs(pop, start, end);
    SeenAre(q, |q|);
    hide Interval, Seen, Population, Us;
    var seen := Seen(q, |q|);
    if o.id in seen && seen[o.id] == o {
      var i :| 0 <= i < |q| && q[i].id == o.id;
      assert q[i] in q && o == OrderOf(q[i]);
    }
    if s :| s in pop && start <= Us(s.ns) < end && o == OrderOf(s) {
      assert s in q;
      var i :| 0 <= i < |q| && q[i] == s;
      assert seen[q[i].id] == OrderOf(q[i]);
    }
  }

  method FetchInterval(pop: seq<Stored>, start: int, end: int) returns (r: Option<seq<Order>>)
    requires Population(pop)
    ensures r.None? <==> Dense(Interval(pop, start, end), true)
    ensures r.Some? ==> && Ascending(r.value)
                        && forall o :: o in r.value <==> exists s ::
                           s in pop && start <= Us(s.ns) < end && o == OrderOf(s)
  {
    hide Dense, Interval, Seen, Population, Ascending, FetchFrom;
    CensusIsExact(pop, start, end);
    r := FetchOrders(ServeUntil(pop, end), start, end, Ids(pop));
    if r.Some? {
      forall o ensures o in r.value <==> exists s :: s in pop && start <= Us(s.ns) < end && o == OrderOf(s) {
        SeenInterval(pop, start, end, o);
      }
    }
  }
}
