/** Against a static server that lists its population oldest first, the open-order scan returns exactly the
    population, and refuses exactly when a full page of orders lies within one microsecond step. */
module OpenOrderCompleteness {
  import opened Common
  import opened OpenOrderScan

  /** An order as the server holds it, to the nanosecond. */
  datatype Stored = Stored(id: nat, ns: int, detail: nat)

  /** Oldest first, ties in one fixed order, no id twice. */
  predicate Population(pop: seq<Stored>) {
    && (forall i, j :: 0 <= i < j < |pop| ==> pop[i].ns <= pop[j].ns)
    && (forall i, j :: 0 <= i < j < |pop| ==> pop[i].id != pop[j].id)
  }

  /** The client keeps microseconds. */
  function Us(ns: int): int { ns / 1000 }

  function View(s: Stored): Row { Row(Some(s.id), Some(Us(s.ns)), s.detail) }

  function OrderOf(s: Stored): Order { Order(s.id, Some(Us(s.ns)), s.detail) }

  function Views(part: seq<Stored>): seq<Row> {
    seq(|part|, i requires 0 <= i < |part| => View(part[i]))
  }

  /** Whether `after` includes its bound is the server's choice. */
  predicate Within(ns: int, after: int, inclusive: bool) {
    ns > after * 1000 || (inclusive && ns == after * 1000)
  }

  function First(pop: seq<Stored>, after: int, inclusive: bool): (k: nat)
    ensures k <= |pop|
    ensures forall i :: 0 <= i < k ==> !Within(pop[i].ns, after, inclusive)
    ensures k < |pop| ==> Within(pop[k].ns, after, inclusive)
  {
    if pop == [] || Within(pop[0].ns, after, inclusive) then 0 else 1 + First(pop[1..], after, inclusive)
  }

  function From(pop: seq<Stored>, after: Option<int>, inclusive: bool): nat {
    if after.None? then 0 else First(pop, after.value, inclusive)
  }

  function PageEnd(pop: seq<Stored>, k: nat): nat {
    if k + PAGE_LIMIT <= |pop| then k + PAGE_LIMIT else |pop|
  }

  function Page(pop: seq<Stored>, after: Option<int>, inclusive: bool): seq<Row>
  {
    var k := From(pop, after, inclusive);
    if k <= |pop| then Views(pop[k..PageEnd(pop, k)]) else []
  }

  function Serve(pop: seq<Stored>, inclusive: bool): Option<int> -> seq<Row> {
    after => Page(pop, after, inclusive)
  }

  function Ids(pop: seq<Stored>): set<nat> {
    set s | s in pop :: s.id
  }

  /** The dictionary of the first `n` orders. */
  function Seen(pop: seq<Stored>, n: nat): map<nat, Order>
    requires n <= |pop|
  {
    if n == 0 then map[] else Seen(pop, n - 1)[pop[n - 1].id := OrderOf(pop[n - 1])]
  }

  lemma {:induction false} SeenAre(pop: seq<Stored>, n: nat)
    requires n <= |pop| && Population(pop)
    ensures forall id :: id in Seen(pop, n) <==> exists i :: 0 <= i < n && pop[i].id == id
    ensures forall i :: 0 <= i < n ==> Seen(pop, n)[pop[i].id] == OrderOf(pop[i])
  {
    if n > 0 { SeenAre(pop, n - 1); }
  }

  lemma {:induction false} SeenWithin(pop: seq<Stored>, n: nat)
    requires n <= |pop|
    ensures Seen(pop, n).Keys <= Ids(pop)
  {
    if n > 0 {
      SeenWithin(pop, n - 1);
      assert pop[n - 1] in pop;
    }
  }

  lemma ServesPopulation(pop: seq<Stored>, inclusive: bool)
    ensures Serves(Serve(pop, inclusive), Ids(pop))
  {
    forall after, row | row in Serve(pop, inclusive)(after) && row.id.Some? ensures row.id.value in Ids(pop) {
      var k := From(pop, after, inclusive);
      var part := pop[k..PageEnd(pop, k)];
      var i :| 0 <= i < |part| && View(part[i]) == row;
      assert part[i] == pop[k + i] && pop[k + i] in pop;
    }
  }

  function IdsOn(pop: seq<Stored>, k: nat, j: nat): set<nat>
    requires k <= j <= |pop|
  {
    set i | k <= i < j :: pop[i].id
  }

  function MaxNat(a: nat, b: nat): nat { if a >= b then a else b }

  /** The row loop's facts after an honest page's rows `k` to `j`, when the first `e` orders were already seen. */
  function HonestFold(pop: seq<Stored>, k: nat, j: nat, e: nat): Fold
    requires k <= j <= |pop| && e <= |pop|
  {
    Fold(Seen(pop, MaxNat(e, j)), IdsOn(pop, k, j), if j > k then Some(Us(pop[j - 1].ns)) else None,
         if j > e then j - e else 0)
  }

  /** The row loop accepts any honest page that starts no later than what was seen, and adds what lies beyond. */
  lemma {:induction false} HonestRows(pop: seq<Stored>, k: nat, j: nat, e: nat, after: Option<int>, full: bool)
    requires Population(pop) && k <= j <= |pop| && k <= e <= |pop|
    requires after.Some? ==> forall i :: k <= i < |pop| ==> Us(pop[i].ns) >= after.value
    ensures AllRows(Fold(Seen(pop, e), {}, None, 0), Views(pop[k..j]), after, full) == Some(HonestFold(pop, k, j, e))
    decreases j
  {
    hide OneRow, Seen, IdsOn, AllRows, HonestFold, Population, Views, View, Us;
    if j == k {
      NoRows(pop, k, e, after, full);
    } else {
      var n := j - 1;
      HonestRows(pop, k, n, e, after, full);
      ViewsStep(pop, k, n);
      OneHonestRow(pop, k, n, e, after, full);
      MoreRows(Fold(Seen(pop, e), {}, None, 0), Views(pop[k..n]), View(pop[n]), after, full);
    }
  }

  lemma {:induction false} NoRows(pop: seq<Stored>, k: nat, e: nat, after: Option<int>, full: bool)
    requires k <= e <= |pop|
    ensures AllRows(Fold(Seen(pop, e), {}, None, 0), Views(pop[k..k]), after, full) == Some(HonestFold(pop, k, k, e))
  {
    hide Seen, OneRow;
    assert Views(pop[k..k]) == [];
    assert IdsOn(pop, k, k) == {};
  }

  lemma ViewsStep(pop: seq<Stored>, k: nat, n: nat)
    requires k <= n < |pop|
    ensures Views(pop[k..n + 1]) == Views(pop[k..n]) + [View(pop[n])]
  {
  }

  lemma {:induction false} MoreRows(f: Fold, rows: seq<Row>, row: Row, after: Option<int>, full: bool)
    requires AllRows(f, rows, after, full).Some?
    ensures AllRows(f, rows + [row], after, full) == OneRow(AllRows(f, rows, after, full).value, row, after, full)
  {
    assert (rows + [row])[..|rows|] == rows;
  }

  lemma {:induction false} SeenStep(pop: seq<Stored>, e: nat, n: nat)
    requires Population(pop) && n < |pop| && e <= |pop|
    ensures var id, seen, next := pop[n].id, Seen(pop, MaxNat(e, n)), Seen(pop, MaxNat(e, n + 1));
            && (id in seen <==> n < e)
            && (n < e ==> seen[id] == OrderOf(pop[n]))
            && next == seen[id := OrderOf(pop[n])]
  {
    SeenAre(pop, MaxNat(e, n));
  }

  lemma IdsStep(pop: seq<Stored>, k: nat, n: nat)
    requires Population(pop) && k <= n < |pop|
    ensures pop[n].id !in IdsOn(pop, k, n) && IdsOn(pop, k, n + 1) == IdsOn(pop, k, n) + {pop[n].id}
  {
  }

  lemma OneHonestRow(pop: seq<Stored>, k: nat, n: nat, e: nat, after: Option<int>, full: bool)
    requires Population(pop) && k <= n < |pop| && k <= e <= |pop|
    requires after.Some? ==> Us(pop[n].ns) >= after.value
    ensures OneRow(HonestFold(pop, k, n, e), View(pop[n]), after, full) == Some(HonestFold(pop, k, n + 1, e))
  {
    SeenStep(pop, e, n);
    IdsStep(pop, k, n);
    if n > k { assert pop[n - 1].ns <= pop[n].ns; UsMonotone(pop[n - 1].ns, pop[n].ns); }
    hide Population, Seen, IdsOn, Us;
  }

  // ---- where the scan stands ----

  /** The latest stamp among the first `e` orders. */
  function Latest(pop: seq<Stored>, e: nat): int
    requires 0 < e <= |pop|
  {
    Us(pop[e - 1].ns)
  }

  /** The scan's state once a full page has ended at `e`. */
  function StateAt(pop: seq<Stored>, e: nat): Scan
    requires PAGE_LIMIT <= e <= |pop|
  {
    Scan(Seen(pop, e), Some(Latest(pop, e) - 1), AtLatest(Views(pop[e - PAGE_LIMIT..e]), Latest(pop, e)))
  }

  /** Orders before the page are outside the next request too. */
  predicate Settled(pop: seq<Stored>, e: nat, inclusive: bool)
    requires PAGE_LIMIT <= e <= |pop|
  {
    e == PAGE_LIMIT || !Within(pop[e - PAGE_LIMIT - 1].ns, Latest(pop, e) - 1, inclusive)
  }

  /** A whole page of orders that one microsecond step cannot get past. */
  predicate DenseAt(pop: seq<Stored>, k: nat, inclusive: bool) {
    k + PAGE_LIMIT <= |pop| && Within(pop[k].ns, Us(pop[k + PAGE_LIMIT - 1].ns) - 1, inclusive)
  }

  predicate Dense(pop: seq<Stored>, inclusive: bool) {
    exists k :: 0 <= k < |pop| && DenseAt(pop, k, inclusive)
  }

  lemma OutsideLater(ns: int, after: int, later: int, inclusive: bool)
    requires after <= later && !Within(ns, after, inclusive)
    ensures !Within(ns, later, inclusive)
  {
  }

  lemma UsMonotone(a: int, b: int)
    requires a <= b
    ensures Us(a) <= Us(b)
  {
  }

  lemma WithinStamp(ns: int, after: int, inclusive: bool)
    ensures Within(ns, after, inclusive) ==> Us(ns) >= after
    ensures Us(ns) > after ==> Within(ns, after, inclusive)
  {
  }

  /** The next request starts inside the page just read, never before it. */
  lemma {:induction false} NextStart(pop: seq<Stored>, e: nat, inclusive: bool)
    requires Population(pop) && PAGE_LIMIT <= e <= |pop| && Settled(pop, e, inclusive)
    ensures var k := First(pop, Latest(pop, e) - 1, inclusive);
            && e - PAGE_LIMIT <= k < e
            && (forall i :: k <= i < |pop| ==> Us(pop[i].ns) >= Latest(pop, e) - 1)
            && (forall i :: 0 <= i < e && Us(pop[i].ns) == Latest(pop, e) ==> k <= i)
            && (k == e - PAGE_LIMIT <==> DenseAt(pop, e - PAGE_LIMIT, inclusive))
  {
    var after := Latest(pop, e) - 1;
    var k := First(pop, after, inclusive);
    forall i | 0 <= i < |pop| ensures (Within(pop[i].ns, after, inclusive) ==> Us(pop[i].ns) >= after)
                                   && (Us(pop[i].ns) > after ==> Within(pop[i].ns, after, inclusive)) {
      WithinStamp(pop[i].ns, after, inclusive);
    }
    assert Within(pop[e - 1].ns, after, inclusive);
    forall i | k <= i < |pop| ensures Us(pop[i].ns) >= after {
      UsMonotone(pop[k].ns, pop[i].ns);
    }
    forall i | k <= i < |pop| ensures Within(pop[i].ns, after, inclusive) {
      assert pop[k].ns <= pop[i].ns;
    }
  }

  /** One turn of the loop from a full page ending at `e`. */
  lemma {:induction false} HonestTurn(pop: seq<Stored>, e: nat, inclusive: bool)
    requires Population(pop) && PAGE_LIMIT <= e <= |pop| && Settled(pop, e, inclusive)
    ensures var k := First(pop, Latest(pop, e) - 1, inclusive);
            var t := TakePage(StateAt(pop, e), Page(pop, Some(Latest(pop, e) - 1), inclusive));
            && k < e
            && (k + PAGE_LIMIT > |pop| ==> t == Finish(Seen(pop, |pop|)))
            && (k + PAGE_LIMIT <= |pop| && DenseAt(pop, e - PAGE_LIMIT, inclusive) ==> t == Refuse)
            && (k + PAGE_LIMIT <= |pop| && !DenseAt(pop, e - PAGE_LIMIT, inclusive) ==>
                  && e < k + PAGE_LIMIT && t == Next(StateAt(pop, k + PAGE_LIMIT))
                     && Settled(pop, k + PAGE_LIMIT, inclusive))
  {
    hide AllRows, Seen, DenseAt, First;
    var after := Latest(pop, e) - 1;
    var k := First(pop, after, inclusive);
    NextStart(pop, e, inclusive);
    var j := PageEnd(pop, k);
    var rows := Views(pop[k..j]);
    HonestRows(pop, k, j, e, Some(after), |rows| == PAGE_LIMIT);
    BoundaryReturns(pop, e, k, j);
    if k + PAGE_LIMIT <= |pop| {
      UsMonotone(pop[e - 1].ns, pop[j - 1].ns);
      FirstBefore(pop, after, inclusive);
      if k > 0 { OutsideLater(pop[k - 1].ns, after, Latest(pop, j) - 1, inclusive); }
    }
  }

  lemma {:induction false} FirstBefore(pop: seq<Stored>, after: int, inclusive: bool)
    ensures var k := First(pop, after, inclusive); forall i :: 0 <= i < k ==> !Within(pop[i].ns, after, inclusive)
  {
  }

  /** Every order at the last page's latest stamp comes back on the next page. */
  lemma BoundaryReturns(pop: seq<Stored>, e: nat, k: nat, j: nat)
    requires Population(pop) && PAGE_LIMIT <= e <= |pop| && k < e && j == PageEnd(pop, k) && e - PAGE_LIMIT <= k
    requires forall i :: 0 <= i < e && Us(pop[i].ns) == Latest(pop, e) ==> k <= i
    ensures AtLatest(Views(pop[e - PAGE_LIMIT..e]), Latest(pop, e)) <= IdsOn(pop, k, j)
  {
    var part := pop[e - PAGE_LIMIT..e];
    forall id | id in AtLatest(Views(part), Latest(pop, e)) ensures id in IdsOn(pop, k, j) {
      var row :| row in Views(part) && row.id.Some? && row.at == Some(Latest(pop, e)) && row.id.value == id;
      var i :| 0 <= i < |part| && View(part[i]) == row;
      assert part[i] == pop[e - PAGE_LIMIT + i];
    }
  }

  /** No dense page starts before the page that ended at `e`. */
  predicate SparseBefore(pop: seq<Stored>, n: nat, inclusive: bool) {
    forall k :: 0 <= k < n ==> !DenseAt(pop, k, inclusive)
  }

  lemma StillSparse(pop: seq<Stored>, e: nat, inclusive: bool)
    requires Population(pop) && PAGE_LIMIT <= e <= |pop| && SparseBefore(pop, e - PAGE_LIMIT, inclusive)
    ensures SparseBefore(pop, First(pop, Latest(pop, e) - 1, inclusive), inclusive)
  {
    var k := First(pop, Latest(pop, e) - 1, inclusive);
    forall i | 0 <= i < k ensures !DenseAt(pop, i, inclusive) {
      if i >= e - PAGE_LIMIT && i + PAGE_LIMIT <= |pop| {
        assert pop[e - 1].ns <= pop[i + PAGE_LIMIT - 1].ns;
        UsMonotone(pop[e - 1].ns, pop[i + PAGE_LIMIT - 1].ns);
        OutsideLater(pop[i].ns, Latest(pop, e) - 1, Us(pop[i + PAGE_LIMIT - 1].ns) - 1, inclusive);
      }
    }
  }

  lemma {:induction false} HonestScanFrom(pop: seq<Stored>, e: nat, inclusive: bool)
    requires Population(pop) && PAGE_LIMIT <= e <= |pop| && Settled(pop, e, inclusive)
    requires SparseBefore(pop, e - PAGE_LIMIT, inclusive)
    ensures Serves(Serve(pop, inclusive), Ids(pop)) && Seen(pop, e).Keys <= Ids(pop)
    ensures ScanFrom(Serve(pop, inclusive), Ids(pop), StateAt(pop, e))
         == if Dense(pop, inclusive) then None else Some(Seen(pop, |pop|))
    decreases |pop| - e
  {
    hide DenseAt, TakePage, Page, First;
    ServesPopulation(pop, inclusive);
    SeenWithin(pop, e);
    HonestTurn(pop, e, inclusive);
    StillSparse(pop, e, inclusive);
    var k := First(pop, Latest(pop, e) - 1, inclusive);
    if k + PAGE_LIMIT > |pop| {
      assert !Dense(pop, inclusive) by { NoneLeft(pop, k, inclusive); }
    } else if !DenseAt(pop, e - PAGE_LIMIT, inclusive) {
      HonestScanFrom(pop, k + PAGE_LIMIT, inclusive);
    }
  }

  lemma NoneLeft(pop: seq<Stored>, k: nat, inclusive: bool)
    requires SparseBefore(pop, k, inclusive) && k + PAGE_LIMIT > |pop|
    ensures !Dense(pop, inclusive)
  {
  }

  /** The whole scan: the exact population,
    or a refusal exactly when some full page lies within one microsecond step. */
  lemma {:induction false} ScanIsExact(pop: seq<Stored>, inclusive: bool)
    requires Population(pop)
    ensures Serves(Serve(pop, inclusive), Ids(pop))
    ensures ScanFrom(Serve(pop, inclusive), Ids(pop), START)
         == if Dense(pop, inclusive) then None else Some(Seen(pop, |pop|))
  {
    hide TakePage, Page, DenseAt, First;
    ServesPopulation(pop, inclusive);
    FirstTurn(pop, inclusive);
    if PAGE_LIMIT <= |pop| {
      HonestScanFrom(pop, PAGE_LIMIT, inclusive);
    } else {
      assert !Dense(pop, inclusive) by { NoneLeft(pop, 0, inclusive); }
    }
  }

  lemma {:induction false} NoneSeen(pop: seq<Stored>)
    ensures Seen(pop, 0) == map[]
  {
  }

  lemma {:induction false} FirstTurn(pop: seq<Stored>, inclusive: bool)
    requires Population(pop)
    ensures TakePage(START, Page(pop, None, inclusive))
         == if PAGE_LIMIT <= |pop| then Next(StateAt(pop, PAGE_LIMIT)) else Finish(Seen(pop, |pop|))
  {
    hide First, AtLatest, OneRow, AllRows, Seen, IdsOn, Population;
    var j := PageEnd(pop, 0);
    HonestRows(pop, 0, j, 0, None, j == PAGE_LIMIT);
    NoneSeen(pop);
    assert pop[0..j] == pop[..j];
  }

  /** What the caller gets: every order of the population once, latest first. */
  method ReadPopulation(pop: seq<Stored>, inclusive: bool) returns (r: Option<seq<Order>>)
    requires Population(pop)
    ensures r.None? <==> Dense(pop, inclusive)
    ensures r.Some? ==> Descending(r.value) && |r.value| == |pop|
                        && forall o :: o in r.value <==> exists i :: 0 <= i < |pop| && o == OrderOf(pop[i])
  {
    ScanIsExact(pop, inclusive);
    r := GetOpenOrders(Serve(pop, inclusive), Ids(pop));
    SeenAre(pop, |pop|);
    if r.Some? {
      forall o ensures o in r.value <==> exists i :: 0 <= i < |pop| && o == OrderOf(pop[i]) {
        if o in r.value {
          var i :| 0 <= i < |pop| && pop[i].id == o.id;
          assert o == OrderOf(pop[i]);
        }
      }
      SameCount(pop, r.value);
    }
  }

  lemma SameCount(pop: seq<Stored>, list: seq<Order>)
    requires Population(pop) && Descending(list)
    requires forall o :: o in list <==> exists i :: 0 <= i < |pop| && o == OrderOf(pop[i])
    ensures |list| == |pop|
  {
    var orders := seq(|pop|, i requires 0 <= i < |pop| => OrderOf(pop[i]));
    DistinctCount(list);
    DistinctCount(orders);
    forall o ensures o in orders <==> o in list {
      if o in list {
        var i :| 0 <= i < |pop| && o == OrderOf(pop[i]);
        assert orders[i] == o;
      }
    }
    assert (set o | o in orders) == (set o | o in list);
  }

  lemma {:induction false} DistinctCount(list: seq<Order>)
    requires forall i, j :: 0 <= i < j < |list| ==> list[i] != list[j]
    ensures |set o | o in list| == |list|
  {
    if list != [] {
      var rest := list[1..];
      DistinctCount(rest);
      assert list[0] !in rest;
      assert (set o | o in list) == {list[0]} + (set o | o in rest);
    }
  }
}
