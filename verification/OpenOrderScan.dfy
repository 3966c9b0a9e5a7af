/** Reading every open order from a server that has no continuation token: each request starts one microsecond before
    the last page's latest stamp, and any page that cannot be part of an ascending, overlapping scan is refused.
    Instants are integers: nanoseconds at the server, microseconds (truncated) at the client. */
module OpenOrderScan {
  import opened Common

  const PAGE_LIMIT: nat := 500

  /** One row of a response; a missing id or stamp is `None`. `detail` stands for symbol and side. */
  datatype Row = Row(id: Option<nat>, at: Option<int>, detail: nat)

  datatype Order = Order(id: nat, at: Option<int>, detail: nat)

  datatype Scan = Scan(orders: map<nat, Order>, after: Option<int>, boundary: set<nat>)

  // ---- one page ----

  /** The running facts of one page's row loop. */
  datatype Fold = Fold(orders: map<nat, Order>, pageIds: set<nat>, latest: Option<int>, added: nat)

  /** One row, or a refusal: no id, repeated on the page, unstamped on a full page, before the request, out of order,
      or in conflict with what was seen before. */
  function OneRow(f: Fold, row: Row, after: Option<int>, full: bool): Option<Fold> {
    if row.id.None? || row.id.value in f.pageIds then None
    else if row.at.None? && full then None
    else if row.at.Some? && after.Some? && row.at.value < after.value then None
    else if row.at.Some? && f.latest.Some? && row.at.value < f.latest.value then None
    else
      var o := Order(row.id.value, row.at, row.detail);
      if o.id in f.orders && f.orders[o.id] != o then None
      else Some(Fold(f.orders[o.id := o], f.pageIds + {o.id}, if row.at.Some? then row.at else f.latest,
                     f.added + (if o.id in f.orders then 0 else 1)))
  }

  function AllRows(f: Fold, rows: seq<Row>, after: Option<int>, full: bool): Option<Fold> {
    if rows == [] then Some(f)
    else
      var n := |rows| - 1;
      match AllRows(f, rows[..n], after, full)
      case None => None
      case Some(g) => OneRow(g, rows[n], after, full)
  }

  /** The ids on the page that carry the latest stamp. */
  function AtLatest(rows: seq<Row>, latest: int): set<nat> {
    set row | row in rows && row.id.Some? && row.at == Some(latest) :: row.id.value
  }

  datatype Turn = Refuse | Finish(orders: map<nat, Order>) | Next(scan: Scan)

  function TakePage(s: Scan, rows: seq<Row>): Turn {
    if |rows| > PAGE_LIMIT then Refuse
    else
      var full := |rows| == PAGE_LIMIT;
      match AllRows(Fold(s.orders, {}, None, 0), rows, s.after, full)
      case None => Refuse
      case Some(f) =>
        if !(s.boundary <= f.pageIds) then Refuse
        else if !full then Finish(f.orders)
        else if f.latest.None? || f.added == 0 then Refuse
        else Next(Scan(f.orders, Some(f.latest.value - 1), AtLatest(rows, f.latest.value)))
  }

  /** The row loop of one page, and what it decides. */
  method ReadPage(s: Scan, rows: seq<Row>) returns (t: Turn)
    ensures t == TakePage(s, rows)
  {
    if |rows| > PAGE_LIMIT { return Refuse; }
    var full := |rows| == PAGE_LIMIT;
    var orders: map<nat, Order>, pageIds: set<nat>, latest: Option<int>, added: nat := s.orders, {}, None, 0;
    for n := 0 to |rows|
      invariant AllRows(Fold(s.orders, {}, None, 0), rows[..n], s.after, full)
                == Some(Fold(orders, pageIds, latest, added))
    {
      assert rows[..n + 1][..n] == rows[..n];
      var row := rows[n];
      var refused := row.id.None? || row.id.value in pageIds;
      if !refused {
        pageIds := pageIds + {row.id.value};
        if row.at.None? {
          refused := full;
        } else {
          refused := (s.after.Some? && row.at.value < s.after.value) || (latest.Some? && row.at.value < latest.value);
          latest := row.at;
        }
      }
      if !refused {
        var o := Order(row.id.value, row.at, row.detail);
        refused := o.id in orders && orders[o.id] != o;
        added := added + (if o.id in orders then 0 else 1);
        orders := orders[o.id := o];
      }
      if refused {
        assert AllRows(Fold(s.orders, {}, None, 0), rows[..n + 1], s.after, full).None?;
        RefusalSpreads(Fold(s.orders, {}, None, 0), rows, n + 1, s.after, full);
        return Refuse;
      }
    }
    assert rows[..|rows|] == rows;
    if !(s.boundary <= pageIds) { return Refuse; }
    if !full { return Finish(orders); }
    if latest.None? || added == 0 { return Refuse; }
    t := Next(Scan(orders, Some(latest.value - 1), AtLatest(rows, latest.value)));
  }

  lemma {:induction false} RefusalSpreads(f: Fold, rows: seq<Row>, n: nat, after: Option<int>, full: bool)
    requires n <= |rows| && AllRows(f, rows[..n], after, full).None?
    ensures AllRows(f, rows, after, full).None?
    decreases |rows| - n
  {
    if n == |rows| {
      assert rows[..n] == rows;
    } else {
      assert rows[..n + 1][..n] == rows[..n];
      RefusalSpreads(f, rows, n + 1, after, full);
    }
  }

  // ---- the whole scan ----

  /** Every row the server can return is from a finite population. */
  ghost predicate Serves(fetch: Option<int> -> seq<Row>, universe: set<nat>) {
    forall after, row :: row in fetch(after) && row.id.Some? ==> row.id.value in universe
  }

  lemma RowGrows(f: Fold, row: Row, after: Option<int>, full: bool, universe: set<nat>)
    requires f.orders.Keys <= universe && (row.id.Some? ==> row.id.value in universe)
    ensures var r := OneRow(f, row, after, full);
            r.Some? ==> && f.orders.Keys <= r.value.orders.Keys <= universe && f.added <= r.value.added
                        && |r.value.orders.Keys| == |f.orders.Keys| + (r.value.added - f.added)
  {
    if OneRow(f, row, after, full).Some? {
      assert OneRow(f, row, after, full).value.orders.Keys == f.orders.Keys + {row.id.value};
    }
  }

  lemma {:induction false} RowsGrow(f: Fold, rows: seq<Row>, after: Option<int>, full: bool, universe: set<nat>)
    requires f.orders.Keys <= universe && forall row :: row in rows && row.id.Some? ==> row.id.value in universe
    ensures var r := AllRows(f, rows, after, full);
            r.Some? ==> && f.orders.Keys <= r.value.orders.Keys <= universe && f.added <= r.value.added
                        && |r.value.orders.Keys| == |f.orders.Keys| + (r.value.added - f.added)
  {
    hide OneRow;
    if rows != [] {
      var n := |rows| - 1;
      assert rows[n] in rows;
      RowsGrow(f, rows[..n], after, full, universe);
      var g := AllRows(f, rows[..n], after, full);
      if g.Some? { RowGrows(g.value, rows[n], after, full, universe); }
    }
  }

  lemma PageGrows(s: Scan, rows: seq<Row>, universe: set<nat>)
    requires s.orders.Keys <= universe && forall row :: row in rows && row.id.Some? ==> row.id.value in universe
    ensures var t := TakePage(s, rows);
            t.Next? ==> t.scan.orders.Keys <= universe && |universe - t.scan.orders.Keys| < |universe - s.orders.Keys|
  {
    RowsGrow(Fold(s.orders, {}, None, 0), rows, s.after, |rows| == PAGE_LIMIT, universe);
    var t := TakePage(s, rows);
    if t.Next? {
      Complement(universe, s.orders.Keys);
      Complement(universe, t.scan.orders.Keys);
    }
  }

  lemma Complement(whole: set<nat>, part: set<nat>)
    requires part <= whole
    ensures |whole - part| == |whole| - |part|
  {
    assert whole == part + (whole - part);
  }

  ghost function ScanFrom(fetch: Option<int> -> seq<Row>, universe: set<nat>, s: Scan): Option<map<nat, Order>>
    requires Serves(fetch, universe) && s.orders.Keys <= universe
    decreases |universe - s.orders.Keys|
  {
    match TakePage(s, fetch(s.after))
    case Refuse => None
    case Finish(orders) => Some(orders)
    case Next(scan) =>
      PageGrows(s, fetch(s.after), universe);
      ScanFrom(fetch, universe, scan)
  }

  const START := Scan(map[], None, {})

  // ---- what a page and a scan must show, said of the rows alone ----

  predicate Keyed(orders: map<nat, Order>) {
    forall id :: id in orders ==> orders[id].id == id
  }

  /** The order is listed among the rows. */
  predicate OnPage(rows: seq<Row>, o: Order) { Row(Some(o.id), o.at, o.detail) in rows }

  /** Every row has an id, no id repeats, a full page is stamped throughout, no stamp is before the request, and stamps
      never decrease. */
  ghost predicate RowsSound(rows: seq<Row>, after: Option<int>, full: bool) {
    && (forall i :: 0 <= i < |rows| ==> rows[i].id.Some?)
    && (forall i, j :: 0 <= i < j < |rows| ==> rows[i].id != rows[j].id)
    && (forall i :: 0 <= i < |rows| && full ==> rows[i].at.Some?)
    && (forall i :: 0 <= i < |rows| && rows[i].at.Some? && after.Some? ==> rows[i].at.value >= after.value)
    && (forall i, j :: 0 <= i < j < |rows| && rows[i].at.Some? && rows[j].at.Some? ==>
          rows[i].at.value <= rows[j].at.value)
  }

  /** No listed order contradicts one already known. */
  ghost predicate Agrees(orders: map<nat, Order>, rows: seq<Row>) {
    forall i :: 0 <= i < |rows| && rows[i].id.Some? && rows[i].id.value in orders ==>
      orders[rows[i].id.value] == Order(rows[i].id.value, rows[i].at, rows[i].detail)
  }

  /** The dictionary has this order. */
  predicate Has(orders: map<nat, Order>, o: Order) { o.id in orders && orders[o.id] == o }

  /** The dictionary after a page: what was known and what the page lists. */
  ghost predicate Joined(after: map<nat, Order>, before: map<nat, Order>, rows: seq<Row>) {
    Keyed(after) && forall o :: Has(after, o) <==> Has(before, o) || OnPage(rows, o)
  }

  predicate IsLatestStamp(latest: Option<int>, rows: seq<Row>) {
    && (forall i :: 0 <= i < |rows| && rows[i].at.Some? ==> latest.Some? && rows[i].at.value <= latest.value)
    && (latest.Some? ==> exists i :: 0 <= i < |rows| && rows[i].at == latest)
  }

  /** The loop's facts after these rows. */
  ghost predicate FactsOf(f: Fold, orders: map<nat, Order>, rows: seq<Row>) {
    && Joined(f.orders, orders, rows)
    && (forall id :: id in f.pageIds <==> exists i :: 0 <= i < |rows| && rows[i].id == Some(id))
    && IsLatestStamp(f.latest, rows)
    && (f.added > 0 <==> exists i :: 0 <= i < |rows| && rows[i].id.Some? && rows[i].id.value !in orders)
  }

  lemma NoRowsYet(orders: map<nat, Order>)
    requires Keyed(orders)
    ensures FactsOf(Fold(orders, {}, None, 0), orders, [])
  {
  }

  lemma SoundSplits(rows: seq<Row>, row: Row, after: Option<int>, full: bool)
    ensures RowsSound(rows + [row], after, full)
            <==> && RowsSound(rows, after, full)
                 && row.id.Some? && (forall i :: 0 <= i < |rows| ==> rows[i].id != row.id)
                 && (full ==> row.at.Some?)
                 && (row.at.Some? && after.Some? ==> row.at.value >= after.value)
                 && (row.at.Some? ==> forall i :: 0 <= i < |rows| && rows[i].at.Some? ==>
                                        rows[i].at.value <= row.at.value)
  {
    var all := rows + [row];
    assert all[|rows|] == row;
    assert forall i :: 0 <= i < |rows| ==> all[i] == rows[i];
  }

  lemma AgreesSplits(orders: map<nat, Order>, rows: seq<Row>, row: Row)
    ensures Agrees(orders, rows + [row]) <==> Agrees(orders, rows) && Agrees(orders, [row])
  {
    var all := rows + [row];
    assert all[|rows|] == row && [row][0] == row;
    assert forall i :: 0 <= i < |rows| ==> all[i] == rows[i];
  }

  /** One more row keeps the facts, and is refused exactly when it breaks a rule. */
  lemma RowIs(f: Fold, orders: map<nat, Order>, rows: seq<Row>, row: Row, after: Option<int>, full: bool)
    requires FactsOf(f, orders, rows) && RowsSound(rows, after, full) && Agrees(orders, rows) && Keyed(orders)
    ensures OneRow(f, row, after, full).Some?
            <==> RowsSound(rows + [row], after, full) && Agrees(orders, rows + [row])
    ensures OneRow(f, row, after, full).Some? ==> FactsOf(OneRow(f, row, after, full).value, orders, rows + [row])
  {
    hide RowsSound, Agrees, FactsOf, IsLatestStamp, Joined;
    SoundSplits(rows, row, after, full);
    AgreesSplits(orders, rows, row);
    RowRefused(f, orders, rows, row, after, full);
    if OneRow(f, row, after, full).Some? { RowAdds(f, orders, rows, row, after, full); }
  }

  lemma RowRefused(f: Fold, orders: map<nat, Order>, rows: seq<Row>, row: Row, after: Option<int>, full: bool)
    requires FactsOf(f, orders, rows) && Keyed(orders) && RowsSound(rows, after, full)
    ensures OneRow(f, row, after, full).Some?
            <==> && row.id.Some? && (forall i :: 0 <= i < |rows| ==> rows[i].id != row.id)
                 && (full ==> row.at.Some?)
                 && (row.at.Some? && after.Some? ==> row.at.value >= after.value)
                 && (row.at.Some? ==> forall i :: 0 <= i < |rows| && rows[i].at.Some? ==>
                                        rows[i].at.value <= row.at.value)
                 && Agrees(orders, [row])
  {
    hide RowsSound;
    assert [row][0] == row;
    if row.id.Some? && (forall i :: 0 <= i < |rows| ==> rows[i].id != row.id) {
      var o := Order(row.id.value, row.at, row.detail);
      assert row.id.value !in f.pageIds;
      if o.id in f.orders {
        assert Has(f.orders, f.orders[o.id]);
        assert !OnPage(rows, f.orders[o.id]);
      }
      if o.id in orders {
        assert Has(orders, orders[o.id]);
        assert Has(f.orders, orders[o.id]);
      }
      assert o.id in f.orders <==> o.id in orders;
    }
  }

  lemma RowAdds(f: Fold, orders: map<nat, Order>, rows: seq<Row>, row: Row, after: Option<int>, full: bool)
    requires FactsOf(f, orders, rows) && Keyed(orders) && OneRow(f, row, after, full).Some?
    ensures FactsOf(OneRow(f, row, after, full).value, orders, rows + [row])
  {
    var g, all := OneRow(f, row, after, full).value, rows + [row];
    var o := Order(row.id.value, row.at, row.detail);
    assert all[|rows|] == row;
    assert forall i :: 0 <= i < |rows| ==> all[i] == rows[i];
    assert forall r :: r in all <==> r in rows || r == row;
    assert o.id in f.orders <==> o.id in orders by {
      if o.id in f.orders { assert Has(f.orders, f.orders[o.id]); }
      if o.id in orders { assert Has(orders, orders[o.id]); assert Has(f.orders, orders[o.id]); }
    }
    assert Joined(g.orders, orders, all) by {
      forall x ensures Has(g.orders, x) <==> Has(orders, x) || OnPage(all, x) {
        assert OnPage(all, x) <==> OnPage(rows, x) || x == o;
        assert Has(f.orders, x) <==> Has(orders, x) || OnPage(rows, x);
        if x.id == o.id && Has(f.orders, x) { assert x == o; }
      }
    }
  }

  lemma {:induction false} RowsAre(orders: map<nat, Order>, rows: seq<Row>, after: Option<int>, full: bool)
    requires Keyed(orders)
    ensures var r := AllRows(Fold(orders, {}, None, 0), rows, after, full);
            && (r.Some? <==> RowsSound(rows, after, full) && Agrees(orders, rows))
            && (r.Some? ==> FactsOf(r.value, orders, rows))
  {
    hide OneRow, RowsSound, Agrees, FactsOf;
    if rows == [] {
      NoRowsYet(orders);
      assert RowsSound([], after, full) && Agrees(orders, []) by { NothingIsSound(orders, after, full); }
    } else {
      var n := |rows| - 1;
      assert rows == rows[..n] + [rows[n]];
      RowsAre(orders, rows[..n], after, full);
      SoundSplits(rows[..n], rows[n], after, full);
      AgreesSplits(orders, rows[..n], rows[n]);
      var r := AllRows(Fold(orders, {}, None, 0), rows[..n], after, full);
      if r.Some? { RowIs(r.value, orders, rows[..n], rows[n], after, full); }
    }
  }

  lemma NothingIsSound(orders: map<nat, Order>, after: Option<int>, full: bool)
    ensures RowsSound([], after, full) && Agrees(orders, [])
  {
  }

  /** Some listed order was not known. */
  ghost predicate BringsNew(orders: map<nat, Order>, rows: seq<Row>) {
    exists i :: 0 <= i < |rows| && rows[i].id.Some? && rows[i].id.value !in orders
  }

  /** A page the scan accepts: no longer than the limit, sound, in agreement with what is known, and listing every order
      the last page ended on. */
  ghost predicate PageSound(s: Scan, rows: seq<Row>) {
    && |rows| <= PAGE_LIMIT && RowsSound(rows, s.after, |rows| == PAGE_LIMIT) && Agrees(s.orders, rows)
    && forall id :: id in s.boundary ==> exists i :: 0 <= i < |rows| && rows[i].id == Some(id)
  }

  /** Any page that breaks a rule, and a full page with nothing new, is refused; a short page ends the scan; a full one
      continues one microsecond before its last stamp, owing every order that carries it. */
  lemma TurnIs(s: Scan, rows: seq<Row>)
    requires Keyed(s.orders)
    ensures var t, full := TakePage(s, rows), |rows| == PAGE_LIMIT;
            && (t.Refuse? <==> !PageSound(s, rows) || (full && !BringsNew(s.orders, rows)))
            && (t.Finish? ==> !full && Joined(t.orders, s.orders, rows))
            && (t.Next? ==> && full && rows[PAGE_LIMIT - 1].at.Some? && Joined(t.scan.orders, s.orders, rows)
                            && t.scan.after == Some(rows[PAGE_LIMIT - 1].at.value - 1)
                            && forall id :: id in t.scan.boundary
                                            <==> exists i :: 0 <= i < |rows| && rows[i].id == Some(id)
                                                             && rows[i].at == rows[PAGE_LIMIT - 1].at)
  {
    hide RowsSound, Agrees, AllRows;
    var full := |rows| == PAGE_LIMIT;
    RowsAre(s.orders, rows, s.after, full);
    var r := AllRows(Fold(s.orders, {}, None, 0), rows, s.after, full);
    if r.Some? && full {
      LastIsLatest(r.value.latest, rows, s.after);
      BoundaryIs(rows, r.value.latest.value, s.after);
    }
  }

  lemma LastIsLatest(latest: Option<int>, rows: seq<Row>, after: Option<int>)
    requires |rows| == PAGE_LIMIT && RowsSound(rows, after, true) && IsLatestStamp(latest, rows)
    ensures latest.Some? && rows[PAGE_LIMIT - 1].at == latest
  {
    var last := PAGE_LIMIT - 1;
    assert rows[last].at.Some?;
    var i :| 0 <= i < |rows| && rows[i].at == latest;
    assert i < last ==> rows[i].at.value <= rows[last].at.value;
  }

  lemma BoundaryIs(rows: seq<Row>, latest: int, after: Option<int>)
    requires RowsSound(rows, after, true)
    ensures forall id :: id in AtLatest(rows, latest)
                         <==> exists i :: 0 <= i < |rows| && rows[i].id == Some(id) && rows[i].at == Some(latest)
  {
    forall id | id in AtLatest(rows, latest)
      ensures exists i :: 0 <= i < |rows| && rows[i].id == Some(id) && rows[i].at == Some(latest)
    {
      var row :| row in rows && row.id == Some(id) && row.at == Some(latest);
      var i :| 0 <= i < |rows| && rows[i] == row;
    }
  }

  // ---- the whole scan, said of the pages it requested ----

  /** A request and the rows that came back. */
  datatype Reply = Reply(after: Option<int>, rows: seq<Row>)

  ghost predicate OnPages(pages: seq<Reply>, o: Order) {
    exists k :: 0 <= k < |pages| && OnPage(pages[k].rows, o)
  }

  /** A full page, and the reply to the request that starts one microsecond before its last stamp, which lists every
      order with that stamp again. */
  ghost predicate Continues(before: Reply, page: Reply) {
    && |before.rows| == PAGE_LIMIT && before.rows[PAGE_LIMIT - 1].at.Some?
    && page.after == Some(before.rows[PAGE_LIMIT - 1].at.value - 1)
    && forall i :: 0 <= i < |before.rows| && before.rows[i].at == before.rows[PAGE_LIMIT - 1].at ==>
         exists j :: 0 <= j < |page.rows| && page.rows[j].id == before.rows[i].id
  }

  /** No order is listed in two ways. */
  ghost predicate Consistent(pages: seq<Reply>) {
    forall o, p :: OnPages(pages, o) && OnPages(pages, p) && o.id == p.id ==> o == p
  }

  ghost predicate ReplySound(fetch: Option<int> -> seq<Row>, page: Reply) {
    && page.rows == fetch(page.after) && |page.rows| <= PAGE_LIMIT
    && RowsSound(page.rows, page.after, |page.rows| == PAGE_LIMIT)
  }

  /** Replies that continue one another from the unbounded first request on, each sound and all consistent. */
  ghost predicate Trail(fetch: Option<int> -> seq<Row>, pages: seq<Reply>) {
    && (forall k :: 0 <= k < |pages| ==> ReplySound(fetch, pages[k]))
    && (pages != [] ==> pages[0].after == None)
    && (forall k :: 0 < k < |pages| ==> Continues(pages[k - 1], pages[k]))
    && Consistent(pages)
  }

  /** The page lists an order that none of the others does. */
  ghost predicate NewTo(pages: seq<Reply>, page: Reply) {
    exists i :: && 0 <= i < |page.rows| && page.rows[i].id.Some?
                && forall o :: OnPages(pages, o) ==> page.rows[i].id != Some(o.id)
  }

  /** The first `n` pages are full and each brings something new. */
  ghost predicate AllNew(pages: seq<Reply>, n: nat)
    requires n <= |pages|
  {
    forall k :: 0 <= k < n ==> |pages[k].rows| == PAGE_LIMIT && NewTo(pages[..k], pages[k])
  }

  /** The evidence of a complete population: only the last page is short. */
  ghost predicate Complete(fetch: Option<int> -> seq<Row>, pages: seq<Reply>) {
    && pages != [] && Trail(fetch, pages) && AllNew(pages, |pages| - 1)
    && |pages[|pages| - 1].rows| < PAGE_LIMIT
  }

  ghost predicate Known(orders: map<nat, Order>, pages: seq<Reply>) {
    Keyed(orders) && forall o :: Has(orders, o) <==> OnPages(pages, o)
  }

  /** What the scan must list next: every order the last page ended on. */
  ghost predicate Owes(boundary: set<nat>, pages: seq<Reply>) {
    if pages == [] then boundary == {}
    else
      var rows := pages[|pages| - 1].rows;
      && |rows| == PAGE_LIMIT
      && forall id :: id in boundary <==> exists i :: 0 <= i < |rows| && rows[i].id == Some(id)
                                                      && rows[i].at == rows[PAGE_LIMIT - 1].at
  }

  /** The scan after these pages. */
  ghost predicate Reached(fetch: Option<int> -> seq<Row>, pages: seq<Reply>, s: Scan) {
    && Trail(fetch, pages) && AllNew(pages, |pages|) && Known(s.orders, pages) && Owes(s.boundary, pages)
    && s.after == NextRequest(pages)
  }

  function NextRequest(pages: seq<Reply>): Option<int> {
    if pages == [] then None
    else
      var rows := pages[|pages| - 1].rows;
      if rows != [] && rows[|rows| - 1].at.Some? then Some(rows[|rows| - 1].at.value - 1) else None
  }

  lemma OnMorePages(pages: seq<Reply>, page: Reply, o: Order)
    ensures OnPages(pages + [page], o) <==> OnPages(pages, o) || OnPage(page.rows, o)
  {
    var all := pages + [page];
    assert all[|pages|] == page;
    assert forall k :: 0 <= k < |pages| ==> all[k] == pages[k];
  }

  /** Once the rows are sound, agreeing with the dictionary is keeping the pages consistent. */
  lemma AgreesIffConsistent(orders: map<nat, Order>, pages: seq<Reply>, page: Reply, full: bool)
    requires Known(orders, pages) && RowsSound(page.rows, page.after, full)
    ensures Agrees(orders, page.rows) <==> Consistent(pages + [page])
  {
    hide OnPages;
    var all := pages + [page];
    if Agrees(orders, page.rows) {
      forall o, p | OnPages(all, o) && OnPages(all, p) && o.id == p.id ensures o == p {
        OnMorePages(pages, page, o);
        OnMorePages(pages, page, p);
        assert OnPages(pages, o) ==> Has(orders, o);
        assert OnPages(pages, p) ==> Has(orders, p);
        if OnPage(page.rows, o) { var i :| 0 <= i < |page.rows| && page.rows[i] == Row(Some(o.id), o.at, o.detail); }
        if OnPage(page.rows, p) { var j :| 0 <= j < |page.rows| && page.rows[j] == Row(Some(p.id), p.at, p.detail); }
      }
    } else {
      var i :| && 0 <= i < |page.rows| && page.rows[i].id.Some? && page.rows[i].id.value in orders
               && orders[page.rows[i].id.value]
                  != Order(page.rows[i].id.value, page.rows[i].at, page.rows[i].detail);
      var o := Order(page.rows[i].id.value, page.rows[i].at, page.rows[i].detail);
      var p := orders[o.id];
      assert page.rows[i] in page.rows && OnPage(page.rows, o) && Has(orders, p);
      OnMorePages(pages, page, o);
      OnMorePages(pages, page, p);
    }
  }

  lemma NewIffNotKnown(orders: map<nat, Order>, pages: seq<Reply>, page: Reply)
    requires Known(orders, pages)
    ensures BringsNew(orders, page.rows) <==> NewTo(pages, page)
  {
    hide OnPages;
    forall i | 0 <= i < |page.rows| && page.rows[i].id.Some?
      ensures page.rows[i].id.value in orders <==> exists o :: OnPages(pages, o) && page.rows[i].id == Some(o.id)
    {
      if page.rows[i].id.value in orders {
        assert Has(orders, orders[page.rows[i].id.value]);
      }
    }
  }

  lemma OverlapIffContinues(fetch: Option<int> -> seq<Row>, pages: seq<Reply>, s: Scan, page: Reply)
    requires Reached(fetch, pages, s) && page.after == s.after
    ensures (forall id :: id in s.boundary ==> exists i :: 0 <= i < |page.rows| && page.rows[i].id == Some(id))
            <==> pages == [] || Continues(pages[|pages| - 1], page)
  {
    hide Consistent, Known, AllNew;
    if pages != [] {
      var before := pages[|pages| - 1];
      assert ReplySound(fetch, before) && |before.rows| == PAGE_LIMIT;
      assert before.rows[PAGE_LIMIT - 1].at.Some?;
      if Continues(before, page) {
        forall id | id in s.boundary ensures exists j :: 0 <= j < |page.rows| && page.rows[j].id == Some(id) {
          var i :| 0 <= i < |before.rows| && before.rows[i].id == Some(id)
            && before.rows[i].at == before.rows[PAGE_LIMIT - 1].at;
        }
      }
      if forall id :: id in s.boundary ==> exists i :: 0 <= i < |page.rows| && page.rows[i].id == Some(id) {
        forall i | 0 <= i < |before.rows| && before.rows[i].at == before.rows[PAGE_LIMIT - 1].at
          ensures exists j :: 0 <= j < |page.rows| && page.rows[j].id == before.rows[i].id
        {
          assert before.rows[i].id.value in s.boundary;
        }
      }
    }
  }

  lemma TrailSplits(fetch: Option<int> -> seq<Row>, pages: seq<Reply>, page: Reply)
    requires Trail(fetch, pages)
    ensures Trail(fetch, pages + [page])
            <==> && ReplySound(fetch, page) && Consistent(pages + [page])
                 && if pages == [] then page.after == None else Continues(pages[|pages| - 1], page)
  {
    hide ReplySound, Continues, Consistent;
    var all := pages + [page];
    assert all[|pages|] == page;
    assert forall k :: 0 <= k < |pages| ==> all[k] == pages[k];
  }

  /** The next page is accepted exactly when the trail goes on. */
  lemma SoundIffTrail(fetch: Option<int> -> seq<Row>, pages: seq<Reply>, s: Scan, page: Reply)
    requires Reached(fetch, pages, s) && page == Reply(s.after, fetch(s.after))
    ensures PageSound(s, page.rows) <==> Trail(fetch, pages + [page])
  {
    hide Trail, Consistent, Continues, Known, AllNew, Owes, RowsSound, Agrees;
    TrailSplits(fetch, pages, page);
    OverlapIffContinues(fetch, pages, s, page);
    if RowsSound(page.rows, page.after, |page.rows| == PAGE_LIMIT) {
      AgreesIffConsistent(s.orders, pages, page, |page.rows| == PAGE_LIMIT);
    }
  }

  lemma NewSplits(pages: seq<Reply>, page: Reply)
    requires AllNew(pages, |pages|)
    ensures AllNew(pages + [page], |pages|)
    ensures AllNew(pages + [page], |pages| + 1) <==> |page.rows| == PAGE_LIMIT && NewTo(pages, page)
  {
    hide NewTo;
    var all := pages + [page];
    assert all[|pages|] == page && all[..|pages|] == pages;
    assert forall k :: 0 <= k < |pages| ==> all[k] == pages[k] && all[..k] == pages[..k];
  }

  lemma KnownSplits(orders: map<nat, Order>, before: map<nat, Order>, pages: seq<Reply>, page: Reply)
    requires Known(before, pages) && Joined(orders, before, page.rows)
    ensures Known(orders, pages + [page])
  {
    hide OnPages, OnPage;
    forall o ensures Has(orders, o) <==> OnPages(pages + [page], o) {
      OnMorePages(pages, page, o);
    }
  }

  /** One turn of the loop, said of the pages. */
  lemma TurnOnPages(fetch: Option<int> -> seq<Row>, pages: seq<Reply>, s: Scan)
    requires Reached(fetch, pages, s)
    ensures var page := Reply(s.after, fetch(s.after));
            var t, all := TakePage(s, page.rows), pages + [page];
            && (t.Refuse? <==> !Trail(fetch, all) || (|page.rows| == PAGE_LIMIT && !NewTo(pages, page)))
            && (t.Finish? ==> Complete(fetch, all) && Known(t.orders, all))
            && (t.Next? ==> Reached(fetch, all, t.scan))
  {
    hide Trail, TakePage, RowsSound, Agrees, NewTo, AllNew, Known, Joined, BringsNew;
    var page := Reply(s.after, fetch(s.after));
    var t, all := TakePage(s, page.rows), pages + [page];
    assert Keyed(s.orders) by { KnownIsKeyed(s.orders, pages); }
    TurnIs(s, page.rows);
    SoundIffTrail(fetch, pages, s, page);
    NewIffNotKnown(s.orders, pages, page);
    NewSplits(pages, page);
    assert all[|all| - 1] == page;
    if t.Finish? { KnownSplits(t.orders, s.orders, pages, page); }
    if t.Next? { KnownSplits(t.scan.orders, s.orders, pages, page); }
  }

  lemma KnownIsKeyed(orders: map<nat, Order>, pages: seq<Reply>)
    requires Known(orders, pages)
    ensures Keyed(orders)
  {
  }

  lemma StartReached(fetch: Option<int> -> seq<Row>)
    ensures Reached(fetch, [], START)
  {
  }

  /** An answer has its evidence. */
  lemma {:induction false} AnswerShowsPages(fetch: Option<int> -> seq<Row>, universe: set<nat>, pages: seq<Reply>,
                                            s: Scan)
    requires Serves(fetch, universe) && s.orders.Keys <= universe && Reached(fetch, pages, s)
    ensures var r := ScanFrom(fetch, universe, s);
            r.Some? ==> exists all :: Complete(fetch, all) && Known(r.value, all)
    decreases |universe - s.orders.Keys|
  {
    hide Reached, TakePage, Complete, Known;
    TurnOnPages(fetch, pages, s);
    PageGrows(s, fetch(s.after), universe);
    var t := TakePage(s, fetch(s.after));
    if t.Next? { AnswerShowsPages(fetch, universe, pages + [Reply(s.after, fetch(s.after))], t.scan); }
  }

  /** The scan follows every trail of full pages that each bring something new. */
  lemma {:induction false} ScanFollows(fetch: Option<int> -> seq<Row>, universe: set<nat>, pages: seq<Reply>)
      returns (s: Scan)
    requires Serves(fetch, universe) && Trail(fetch, pages) && AllNew(pages, |pages|)
    ensures Reached(fetch, pages, s) && s.orders.Keys <= universe
    ensures ScanFrom(fetch, universe, s) == ScanFrom(fetch, universe, START)
    decreases |pages|
  {
    hide TakePage, Known, RowsSound, Consistent, NewTo, Owes;
    s := START;
    if pages == [] {
      StartReached(fetch);
    } else {
      var n := |pages| - 1;
      var rest, page := pages[..n], pages[n];
      assert pages == rest + [page];
      TrailShortens(fetch, rest, page);
      s := ScanFollows(fetch, universe, rest);
      assert page == Reply(s.after, fetch(s.after)) by { RequestedNext(fetch, rest, page, s); }
      TurnOnPages(fetch, rest, s);
      NewSplits(rest, page);
      PageGrows(s, fetch(s.after), universe);
      s := TakePage(s, fetch(s.after)).scan;
    }
  }

  lemma TrailShortens(fetch: Option<int> -> seq<Row>, rest: seq<Reply>, page: Reply)
    requires Trail(fetch, rest + [page])
    ensures Trail(fetch, rest)
    ensures AllNew(rest + [page], |rest|) ==> AllNew(rest, |rest|)
    ensures AllNew(rest + [page], |rest| + 1) ==> AllNew(rest, |rest|)
  {
    hide ReplySound, Continues, NewTo;
    var all := rest + [page];
    assert forall k :: 0 <= k < |rest| ==> all[k] == rest[k] && all[..k] == rest[..k];
    forall o | OnPages(rest, o) ensures OnPages(all, o) {
      OnMorePages(rest, page, o);
    }
  }

  lemma RequestedNext(fetch: Option<int> -> seq<Row>, rest: seq<Reply>, page: Reply, s: Scan)
    requires Trail(fetch, rest + [page]) && Reached(fetch, rest, s)
    ensures page == Reply(s.after, fetch(s.after))
  {
    hide RowsSound, Consistent, Known, AllNew;
    TrailSplits(fetch, rest, page);
  }

  /** A complete trail of pages is answered by exactly what it lists. */
  lemma {:induction false} PagesAreAnswered(fetch: Option<int> -> seq<Row>, universe: set<nat>, pages: seq<Reply>)
    requires Serves(fetch, universe) && Complete(fetch, pages)
    ensures ScanFrom(fetch, universe, START).Some? && Known(ScanFrom(fetch, universe, START).value, pages)
  {
    hide TakePage, Known, Reached, Trail, AllNew;
    var n := |pages| - 1;
    var rest, page := pages[..n], pages[n];
    assert pages == rest + [page];
    TrailShortens(fetch, rest, page);
    var s := ScanFollows(fetch, universe, rest);
    RequestedNext(fetch, rest, page, s);
    TurnOnPages(fetch, rest, s);
    assert |page.rows| < PAGE_LIMIT;
    NextIsFull(s, fetch(s.after));
  }

  lemma NextIsFull(s: Scan, rows: seq<Row>)
    ensures TakePage(s, rows).Next? ==> |rows| == PAGE_LIMIT
  {
  }

  /** After any trail of full pages, a page that breaks a rule, or a full page that brings nothing new, ends the scan
      without an answer. */
  lemma {:induction false} BrokenPageIsRefused(fetch: Option<int> -> seq<Row>, universe: set<nat>, pages: seq<Reply>)
    requires Serves(fetch, universe) && Trail(fetch, pages) && AllNew(pages, |pages|)
    ensures var page := Reply(NextRequest(pages), fetch(NextRequest(pages)));
            !Trail(fetch, pages + [page]) || (|page.rows| == PAGE_LIMIT && !NewTo(pages, page)) ==>
              ScanFrom(fetch, universe, START) == None
  {
    hide TakePage, Known, Trail, AllNew, Owes, NewTo;
    var s := ScanFollows(fetch, universe, pages);
    TurnOnPages(fetch, pages, s);
  }

  // ---- the report: latest first, ids breaking ties ----

  predicate Before(a: Order, b: Order) {
    if a.at == b.at then a.id > b.id
    else b.at.None? || (a.at.Some? && a.at.value > b.at.value)
  }

  predicate Descending(list: seq<Order>) {
    forall i, j :: 0 <= i < j < |list| ==> Before(list[i], list[j])
  }

  /** The list holds exactly the dictionary's orders, each once, latest first. */
  ghost predicate Reports(list: seq<Order>, orders: map<nat, Order>) {
    Descending(list) && forall o :: o in list <==> o.id in orders && orders[o.id] == o
  }

  /** The report's order, written out. */
  lemma LatestFirst(list: seq<Order>, i: nat, j: nat)
    requires Descending(list) && i < j < |list|
    ensures list[j].at.Some? ==> list[i].at.Some? && list[i].at.value >= list[j].at.value
    ensures list[i].at == list[j].at ==> list[i].id > list[j].id
  {
    assert Before(list[i], list[j]);
  }

  method SortOrders(orders: map<nat, Order>) returns (list: seq<Order>)
    requires Keyed(orders)
    ensures Reports(list, orders)
  {
    list := [];
    var left := orders.Keys;
    while left != {}
      invariant left <= orders.Keys
      invariant Descending(list) && forall o :: o in list <==> o.id in orders.Keys - left && orders[o.id] == o
      decreases |left|
    {
      var id :| id in left;
      var o := orders[id];
      var k := 0;
      while k < |list| && Before(list[k], o)
        invariant k <= |list| && forall i :: 0 <= i < k ==> Before(list[i], o)
      {
        k := k + 1;
      }
      Inserted(list, k, o);
      list := list[..k] + [o] + list[k..];
      left := left - {id};
    }
  }

  lemma Inserted(list: seq<Order>, k: nat, o: Order)
    requires Descending(list) && k <= |list| && (forall i :: 0 <= i < k ==> Before(list[i], o))
    requires k < |list| ==> !Before(list[k], o)
    requires forall x :: x in list ==> x.id != o.id
    ensures Descending(list[..k] + [o] + list[k..])
    ensures forall x :: x in list[..k] + [o] + list[k..] <==> x in list || x == o
  {
    if k < |list| {
      assert list[k] in list;
      assert Before(o, list[k]);
      forall j | k < j < |list| ensures Before(o, list[j]) {
        assert Before(list[k], list[j]);
      }
    }
    assert list == list[..k] + list[k..];
  }

  /** The scan answers exactly when its pages are evidence of a complete population, and with what they list. */
  lemma {:induction false} AnsweredExactly(fetch: Option<int> -> seq<Row>, universe: set<nat>)
    requires Serves(fetch, universe)
    ensures var r := ScanFrom(fetch, universe, START);
            && (r.Some? <==> exists pages :: Complete(fetch, pages))
            && forall pages :: Complete(fetch, pages) ==>
                 r.Some? && forall o :: Has(r.value, o) <==> OnPages(pages, o)
  {
    hide Complete, OnPages;
    StartReached(fetch);
    AnswerShowsPages(fetch, universe, [], START);
    forall pages | Complete(fetch, pages)
      ensures var r := ScanFrom(fetch, universe, START);
              r.Some? && forall o :: Has(r.value, o) <==> OnPages(pages, o)
    {
      PagesAreAnswered(fetch, universe, pages);
    }
  }

  /** The client's loop. */
  method GetOpenOrders(fetch: Option<int> -> seq<Row>, ghost universe: set<nat>) returns (r: Option<seq<Order>>)
    requires Serves(fetch, universe)
    ensures match ScanFrom(fetch, universe, START)
            case None => r == None
            case Some(orders) => r.Some? && Reports(r.value, orders)
    ensures r.Some? <==> exists pages :: Complete(fetch, pages)
    ensures forall pages :: Complete(fetch, pages) ==>
              r.Some? && Descending(r.value) && forall o :: o in r.value <==> OnPages(pages, o)
  {
    hide OneRow, AllRows, Complete, Known, OnPages, Reached;
    AnsweredExactly(fetch, universe);
    var scan := START;
    while true
      invariant scan.orders.Keys <= universe
      invariant Keyed(scan.orders)
      invariant ScanFrom(fetch, universe, scan) == ScanFrom(fetch, universe, START)
      decreases |universe - scan.orders.Keys|
    {
      var rows := fetch(scan.after);
      PageGrows(scan, rows, universe);
      PageKeepsIds(scan, rows);
      var turn := ReadPage(scan, rows);
      match turn {
        case Refuse => return None;
        case Finish(orders) =>
          var list := SortOrders(orders);
          return Some(list);
        case Next(next) => scan := next;
      }
    }
  }

  lemma {:induction false} RowsKeepIds(f: Fold, rows: seq<Row>, after: Option<int>, full: bool)
    requires Keyed(f.orders)
    ensures var r := AllRows(f, rows, after, full); r.Some? ==> Keyed(r.value.orders)
  {
    if rows != [] {
      var n := |rows| - 1;
      RowsKeepIds(f, rows[..n], after, full);
      var g := AllRows(f, rows[..n], after, full);
      if g.Some? { assert OneRow(g.value, rows[n], after, full) == AllRows(f, rows, after, full); }
    }
  }

  lemma PageKeepsIds(s: Scan, rows: seq<Row>)
    requires Keyed(s.orders)
    ensures var t := TakePage(s, rows); (t.Finish? ==> Keyed(t.orders)) && (t.Next? ==> Keyed(t.scan.orders))
  {
    RowsKeepIds(Fold(s.orders, {}, None, 0), rows, s.after, |rows| == PAGE_LIMIT);
  }
}
