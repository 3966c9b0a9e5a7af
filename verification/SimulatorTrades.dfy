/** Trading over whole scripts: every FILL row trades within its order's limit, at the ask a buy pays or the bid a
    sell gets of the quote in force, or at a price scripted for that order; and every order is the sum of its FILL
    rows. */
module SimulatorTrades {
  import opened Common
  import opened TradingSession
  import opened SimulatorModel
  import opened SimulatorCommands
  import opened SimulatorOrders
  import opened SimulatorFills

  // ---- what was scripted ----

  /** The order this client id belongs to takes the script of that text; an order without an id takes that of "". */
  predicate Names(client: ClientId, text: string) {
    client == Given(text) || (client.Generated? && text == "")
  }

  predicate Prices(fills: seq<ScriptedFill>, price: real) {
    exists j :: 0 <= j < |fills| && fills[j].price == Some(price)
  }

  /** One of the accepted scripts, all of which are `seen`, names this price for the order. */
  predicate Scheduled(seen: seq<Command>, client: ClientId, price: real) {
    exists k :: 0 <= k < |seen| && seen[k].ScheduleFills? && Names(client, seen[k].client)
      && Prices(seen[k].fills, price)
  }

  // ---- a fair row ----

  /** A quote that was the latest one at the instant, whatever came at the instant itself or later. */
  ghost predicate InForce(series: seq<Quote>, at: int, x: Quote) {
    x in series && x.at <= at && forall y :: y in series && y.at > x.at ==> y.at >= at
  }

  predicate AtTouch(o: Order, x: Quote, price: real) {
    (o.side == Buy ==> price == x.ask) && (o.side == Sell ==> price == x.bid)
  }

  /** A positive price within the limit: that of the market, which reached the limit, or one scripted for the order. */
  ghost predicate FairPrice(o: Order, series: seq<Quote>, seen: seq<Command>, at: int, price: real) {
    && price > 0.0 && !BeyondLimit(o, price)
    && (|| (o.limit.None? && Scheduled(seen, o.client, price))
        || exists x :: InForce(series, at, x) && LimitReached(o, Some(x))
                       && (AtTouch(o, x, price) || Scheduled(seen, o.client, price)))
  }

  ghost predicate FairRow(c: Core, seen: seq<Command>, a: Activity) {
    a.row.FillRow? ==>
      && a.row.orderId < |c.orders|
      && var o := c.orders[a.row.orderId];
         FairPrice(o, SeriesOf(c.quotes, o.instrument), seen, a.sortTime, a.row.price)
  }

  ghost predicate RowsFair(c: Core, seen: seq<Command>) {
    forall a :: a in c.activities ==> FairRow(c, seen, a)
  }

  // ---- sums over the FILL rows ----

  function QtyTraded(activities: seq<Activity>, id: nat): real
    decreases |activities|
  {
    if activities == [] then 0.0
    else
      var last := activities[|activities| - 1];
      QtyTraded(activities[..|activities| - 1], id)
      + (if last.row.FillRow? && last.row.orderId == id then last.row.qty else 0.0)
  }

  function ValueTraded(activities: seq<Activity>, id: nat): real
    decreases |activities|
  {
    if activities == [] then 0.0
    else
      var last := activities[|activities| - 1];
      ValueTraded(activities[..|activities| - 1], id)
      + (if last.row.FillRow? && last.row.orderId == id then last.row.qty * last.row.price else 0.0)
  }

  /** The row says what its order had traded up to it: cumulative and open quantity, and the status. */
  ghost predicate RowTallies(orders: seq<Order>, upTo: seq<Activity>)
    requires upTo != []
  {
    var row := upTo[|upTo| - 1].row;
    row.FillRow? ==>
      && row.orderId < |orders| && row.qty > 0.0
      && row.side == orders[row.orderId].side && row.symbol == orders[row.orderId].instrument.symbol
      && row.cumQty == QtyTraded(upTo, row.orderId)
      && row.leaves == (if row.cumQty < orders[row.orderId].qty then orders[row.orderId].qty - row.cumQty else 0.0)
      && row.orderStatus == (if row.cumQty < orders[row.orderId].qty then PartiallyFilled else Filled)
  }

  ghost predicate RowsTally(orders: seq<Order>, activities: seq<Activity>) {
    forall n :: 0 < n <= |activities| ==> RowTallies(orders, activities[..n])
  }

  /** Every order's filled quantity and its value are those of its rows. */
  ghost predicate OrdersTally(orders: seq<Order>, activities: seq<Activity>) {
    forall i :: 0 <= i < |orders| ==>
      orders[i].filledQty == QtyTraded(activities, i) && orders[i].notional == ValueTraded(activities, i)
  }

  // ---- what waits to trade ----

  ghost predicate Priced(orders: seq<Order>, seen: seq<Command>, event: Event) {
    event.Fill? ==>
      event.orderId < |orders|
      && (event.price.Some? ==> Scheduled(seen, orders[event.orderId].client, event.price.value))
  }

  ghost predicate QueuePriced(orders: seq<Order>, seen: seq<Command>, queue: seq<Timed>) {
    forall t :: t in queue ==> Priced(orders, seen, t.event)
  }

  ghost predicate ParkedPriced(orders: seq<Order>, seen: seq<Command>, parked: map<Instrument, seq<Waiting>>) {
    forall k, w :: k in parked && w in parked[k] ==> Priced(orders, seen, w.event)
  }

  ghost predicate Fair(c: Core, seen: seq<Command>) {
    && QuotesRising(c.quotes) && RowsFair(c, seen)
    && RowsTally(c.orders, c.activities) && OrdersTally(c.orders, c.activities)
    && QueuePriced(c.orders, seen, c.queue) && ParkedPriced(c.orders, seen, c.parked)
  }

  // ---- orders keep their terms ----

  predicate SameTerms(o: Order, n: Order) {
    && n.client == o.client && n.instrument == o.instrument && n.side == o.side && n.qty == o.qty
    && n.limit == o.limit
  }

  predicate KeepTerms(before: seq<Order>, after: seq<Order>) {
    |before| <= |after| && forall i :: 0 <= i < |before| ==> SameTerms(before[i], after[i])
  }

  lemma PricedStays(before: seq<Order>, after: seq<Order>, seen: seq<Command>, event: Event)
    requires KeepTerms(before, after) && Priced(before, seen, event)
    ensures Priced(after, seen, event)
  {
    hide Scheduled;
    if event.Fill? { assert SameTerms(before[event.orderId], after[event.orderId]); }
  }

  lemma FairPriceStays(o: Order, n: Order, series: seq<Quote>, seen: seq<Command>, at: int, price: real)
    requires SameTerms(o, n) && FairPrice(o, series, seen, at, price)
    ensures FairPrice(n, series, seen, at, price)
  {
    hide Scheduled, InForce;
  }

  lemma RowsFairStay(c: Core, d: Core, seen: seq<Command>)
    requires RowsFair(c, seen) && KeepTerms(c.orders, d.orders) && d.quotes == c.quotes && d.activities == c.activities
    ensures RowsFair(d, seen)
  {
    hide FairPrice;
    forall a | a in d.activities ensures FairRow(d, seen, a) {
      assert FairRow(c, seen, a);
      if a.row.FillRow? {
        var o, n := c.orders[a.row.orderId], d.orders[a.row.orderId];
        assert SameTerms(o, n);
        FairPriceStays(o, n, SeriesOf(c.quotes, o.instrument), seen, a.sortTime, a.row.price);
      }
    }
  }

  lemma RowsTallyStay(before: seq<Order>, after: seq<Order>, activities: seq<Activity>)
    requires RowsTally(before, activities) && KeepTerms(before, after)
    ensures RowsTally(after, activities)
  {
    hide QtyTraded;
    forall n | 0 < n <= |activities| ensures RowTallies(after, activities[..n]) {
      assert RowTallies(before, activities[..n]);
      var row := activities[..n][n - 1].row;
      if row.FillRow? { assert SameTerms(before[row.orderId], after[row.orderId]); }
    }
  }

  /** What neither trades nor changes a term, and queues only priced fills, stays fair. */
  lemma FairStays(c: Core, d: Core, seen: seq<Command>)
    requires Fair(c, seen) && KeepTerms(c.orders, d.orders) && d.quotes == c.quotes && d.activities == c.activities
    requires OrdersTally(d.orders, d.activities)
    requires QueuePriced(d.orders, seen, d.queue) && ParkedPriced(d.orders, seen, d.parked)
    ensures Fair(d, seen)
  {
    hide RowsFair, RowsTally, OrdersTally, QueuePriced, ParkedPriced, KeepTerms;
    RowsFairStay(c, d, seen);
    RowsTallyStay(c.orders, d.orders, c.activities);
  }

  lemma PricedStay(before: seq<Order>, after: seq<Order>, seen: seq<Command>, queue: seq<Timed>,
                   parked: map<Instrument, seq<Waiting>>)
    requires KeepTerms(before, after)
    ensures QueuePriced(before, seen, queue) ==> QueuePriced(after, seen, queue)
    ensures ParkedPriced(before, seen, parked) ==> ParkedPriced(after, seen, parked)
  {
    hide Priced, KeepTerms;
    if QueuePriced(before, seen, queue) {
      forall t | t in queue ensures Priced(after, seen, t.event) { PricedStays(before, after, seen, t.event); }
    }
    if ParkedPriced(before, seen, parked) {
      forall k, w | k in parked && w in parked[k] ensures Priced(after, seen, w.event) {
        PricedStays(before, after, seen, w.event);
      }
    }
  }

  // ---- one event ----

  lemma {:induction false} TradedAppend(activities: seq<Activity>, a: Activity, id: nat)
    ensures QtyTraded(activities + [a], id)
         == QtyTraded(activities, id) + (if a.row.FillRow? && a.row.orderId == id then a.row.qty else 0.0)
    ensures ValueTraded(activities + [a], id)
         == ValueTraded(activities, id)
            + (if a.row.FillRow? && a.row.orderId == id then a.row.qty * a.row.price else 0.0)
  {
    assert (activities + [a])[..|activities|] == activities;
  }

  lemma RowsTallyAppend(orders: seq<Order>, activities: seq<Activity>, a: Activity)
    requires RowsTally(orders, activities) && RowTallies(orders, activities + [a])
    ensures RowsTally(orders, activities + [a])
  {
    hide RowTallies;
    var all := activities + [a];
    forall n | 0 < n <= |all| ensures RowTallies(orders, all[..n]) {
      if n <= |activities| { assert all[..n] == activities[..n]; } else { assert all[..n] == all; }
    }
  }

  /** The price a planned fill takes is fair at the instant. */
  lemma PlanIsFair(quotes: map<Instrument, seq<Quote>>, o: Order, at: int, event: Event, seen: seq<Command>)
    requires event.Fill? && QuotesRising(quotes)
    requires event.price.Some? ==> Scheduled(seen, o.client, event.price.value)
    requires PlanFill(quotes, o, at, event).Take?
    ensures FairPrice(o, SeriesOf(quotes, o.instrument), seen, at, PlanFill(quotes, o, at, event).price)
  {
    hide Scheduled, PlanFill, QuoteAt;
    var series := SeriesOf(quotes, o.instrument);
    assert Rising(series);
    QuoteAtIsTheLatest(series, at);
    var q := QuoteAt(series, at);
    var price := if event.price.Some? then event.price
                 else if q.None? then None else Some(if o.side == Buy then q.value.ask else q.value.bid);
    var qty := if event.qty.Some? then event.qty.value else o.Remaining();
    OpenQty(o);
    PlanIs(quotes, o, at, event, q, price, qty);
    PlanTakes(quotes, o, at, event);
    if q.Some? { assert InForce(series, at, q.value); }
  }

  lemma PlanTakes(quotes: map<Instrument, seq<Quote>>, o: Order, at: int, event: Event)
    requires event.Fill? && PlanFill(quotes, o, at, event).Take?
    ensures var plan := PlanFill(quotes, o, at, event); plan.price > 0.0 && 0.0 < plan.scripted <= o.Remaining()
  {
  }

  /** One more fill: the order, the row and the sums move together. */
  lemma FillTallies(cfg: Config, c: Core, d: Core, a: Activity, id: nat, at: int, qty: real, price: real)
    requires id < |c.orders| && RowsTally(c.orders, c.activities) && OrdersTally(c.orders, c.activities) && qty > 0.0
    requires |d.orders| == |c.orders| && forall i :: 0 <= i < |c.orders| && i != id ==> d.orders[i] == c.orders[i]
    requires OrderFilled(c.orders[id], d.orders[id], at, qty, price)
    requires d.activities == c.activities + [a] && FillReported(cfg, c, a, id, at, qty, price)
    ensures KeepTerms(c.orders, d.orders)
    ensures RowsTally(d.orders, d.activities) && OrdersTally(d.orders, d.activities)
  {
    hide QtyTraded, ValueTraded, RowsTally;
    assert KeepTerms(c.orders, d.orders);
    RowsTallyStay(c.orders, d.orders, c.activities);
    TradedAppend(c.activities, a, id);
    assert d.activities[|d.activities| - 1] == a;
    RowsTallyAppend(d.orders, c.activities, a);
    forall i | 0 <= i < |d.orders|
      ensures d.orders[i].filledQty == QtyTraded(d.activities, i)
              && d.orders[i].notional == ValueTraded(d.activities, i)
    {
      TradedAppend(c.activities, a, i);
    }
  }

  /** What executing a fill leaves alone, and what it may queue. */
  lemma ExecuteFrame(cfg: Config, c: Core, id: nat, at: int, scripted: real, price: real)
    requires c.history != [] && id < |c.orders|
    ensures var r, x := Execute(cfg, c, id, at, scripted, price), Executed(cfg, c, id, at, scripted, price);
            r.Ok? ==>
              && r.value.orders == x.orders && r.value.activities == x.activities
              && r.value.quotes == c.quotes && r.value.parked == c.parked
              && forall t :: t in r.value.queue && t.event.Fill? ==> t in c.queue
  {
    hide Executed, BookFill, AccrueFees, Owes, Batched, OneEach, Chargeable, FeeBase;
    ExecutedFrame(cfg, c, id, at, scripted, price);
    var executed := Executed(cfg, c, id, at, scripted, price);
    var o, qty := executed.orders[id], scripted + c.orders[id].overfill;
    var booked := BookFill(c.history, o, at, qty, price);
    if booked.Ok? {
      var base := if cfg.fees.Some? then BaseOf(cfg.fees.value.rates, o, qty, price) else 0.0;
      FillOwes(cfg, executed.(history := booked.value), o, at, qty, price, c.draws, base);
    }
  }

  function BaseOf(rates: Rates, o: Order, qty: real, price: real): (base: real)
    ensures FeeBase(rates, o, qty, price, base)
  {
    match o.instrument.assetClass
    case Equity => 0.0
    case OptionContract => qty * rates.occPerContract
    case Crypto => if o.side == Buy then qty * rates.cryptoRate else qty * price * rates.cryptoRate
  }

  lemma ExecutedFrame(cfg: Config, c: Core, id: nat, at: int, scripted: real, price: real)
    requires id < |c.orders|
    ensures var d := Executed(cfg, c, id, at, scripted, price);
            && d == c.(orders := d.orders, activities := d.activities, draws := d.draws) && |d.orders| == |c.orders|
  {
  }

  lemma ExecuteFair(cfg: Config, c: Core, id: nat, at: int, scripted: real, price: real, seen: seq<Command>)
    requires c.history != [] && id < |c.orders| && Fair(c, seen) && scripted > 0.0 && c.orders[id].overfill >= 0.0
    requires FairPrice(c.orders[id], SeriesOf(c.quotes, c.orders[id].instrument), seen, at, price)
    ensures var r := Execute(cfg, c, id, at, scripted, price);
            r.Ok? ==> Fair(r.value, seen) && forall a :: a in r.value.activities ==>
              a in c.activities || a.sortTime == at
  {
    hide Execute, Executed, OrderFilled, RowsTally, OrdersTally, FairPrice, QuotesRising;
    var r, qty := Execute(cfg, c, id, at, scripted, price), scripted + c.orders[id].overfill;
    ExecutedIs(cfg, c, id, at, scripted, price);
    ExecuteFrame(cfg, c, id, at, scripted, price);
    if r.Ok? {
      var d := r.value;
      var a :| d.activities == c.activities + [a] && FillReported(cfg, c, a, id, at, qty, price);
      FillTallies(cfg, c, d, a, id, at, qty, price);
      RowsFairStay(c, c.(orders := d.orders), seen);
      assert SameTerms(c.orders[id], d.orders[id]);
      FairPriceStays(c.orders[id], d.orders[id], SeriesOf(c.quotes, c.orders[id].instrument), seen, at, price);
      RowsFairAppend(c.(orders := d.orders), d, seen, a);
      PricedStay(c.orders, d.orders, seen, c.queue, c.parked);
      assert QueuePriced(d.orders, seen, d.queue);
    }
  }

  lemma RowsFairAppend(c: Core, d: Core, seen: seq<Command>, a: Activity)
    requires RowsFair(c, seen) && d.orders == c.orders && d.quotes == c.quotes && d.activities == c.activities + [a]
    requires FairRow(d, seen, a)
    ensures RowsFair(d, seen)
  {
    hide FairPrice;
    forall x | x in d.activities ensures FairRow(d, seen, x) {
      if x != a { assert x in c.activities && FairRow(c, seen, x); }
    }
  }

  lemma FeeFair(cfg: Config, c: Core, at: int, event: Event, seen: seq<Command>)
    requires c.history != [] && Fair(c, seen) && (event.PostBatch? || event.PostRow?)
    ensures var r := ApplyFee(cfg, c, at, event);
            r.Ok? ==> Fair(r.value, seen) && forall a :: a in r.value.activities ==>
              a in c.activities || a.sortTime == at
  {
    hide FairPrice, QtyTraded, ValueTraded, BookFee, QuotesRising, Priced, RowsTally, OrdersTally, RowsFair;
    var r := ApplyFee(cfg, c, at, event);
    if r.Ok? && r.value.activities != c.activities {
      var d := r.value;
      var a := d.activities[|c.activities|];
      assert d.activities == c.activities + [a] && !a.row.FillRow? && a.sortTime == at;
      RowsFairAppend(c, d, seen, a);
      RowsTallyAppend(c.orders, c.activities, a);
      TallyAppend(c.orders, c.activities, a);
    } else if r.Ok? {
      RowsFairStay(c, r.value, seen);
    }
  }

  lemma TallyAppend(orders: seq<Order>, activities: seq<Activity>, a: Activity)
    requires OrdersTally(orders, activities) && !a.row.FillRow?
    ensures OrdersTally(orders, activities + [a])
  {
    hide QtyTraded, ValueTraded;
    forall i | 0 <= i < |orders|
      ensures orders[i].filledQty == QtyTraded(activities + [a], i)
              && orders[i].notional == ValueTraded(activities + [a], i)
    {
      TradedAppend(activities, a, i);
    }
  }

  lemma RearmFair(c: Core, k: Instrument, at: int, event: Event, seen: seq<Command>)
    requires Fair(c, seen) && Priced(c.orders, seen, event)
    ensures Fair(Rearm(c, k, at, event), seen)
  {
    hide RowsFair, RowsTally, OrdersTally, Priced;
    var later := Later(SeriesOf(c.quotes, k), at);
    if later != [] { InsertMembers(c.queue, later[0].at, event); }
    RowsFairStay(c, Rearm(c, k, at, event), seen);
  }

  lemma OneOrderFair(c: Core, id: nat, o: Order, seen: seq<Command>)
    requires Fair(c, seen) && id < |c.orders| && SameTerms(c.orders[id], o)
    requires o.filledQty == c.orders[id].filledQty && o.notional == c.orders[id].notional
    ensures Fair(c.(orders := c.orders[id := o]), seen)
  {
    hide RowsFair, RowsTally, QueuePriced, ParkedPriced, QtyTraded, ValueTraded;
    var d := c.(orders := c.orders[id := o]);
    assert KeepTerms(c.orders, d.orders);
    PricedStay(c.orders, d.orders, seen, c.queue, c.parked);
    FairStays(c, d, seen);
  }

  /** One event keeps every row fair and every sum right. */
  lemma ApplyFair(cfg: Config, c: Core, at: int, event: Event, seen: seq<Command>)
    requires c.history != [] && Fair(c, seen) && OrdersOk(c) && Priced(c.orders, seen, event)
    ensures var r := Apply(cfg, c, at, event);
            r.Ok? ==> Fair(r.value, seen) && forall a :: a in r.value.activities ==>
              a in c.activities || a.sortTime == at
  {
    hide Fair, Execute, ApplyFee, PlanFill, FairPrice, Rearm;
    if event.PostBatch? || event.PostRow? {
      FeeFair(cfg, c, at, event, seen);
    } else if event.orderId < |c.orders| && !IsTerminal(c.orders[event.orderId].status) {
      var id := event.orderId;
      var o := c.orders[id];
      match event {
        case Start(_) => OneOrderFair(c, id, o.(status := New, submittedAt := Some(at), updatedAt := at), seen);
        case Terminal(_, status) => OneOrderFair(c, id, Finished(o, status, at), seen);
        case Expire(_) => OneOrderFair(c, id, Finished(o, cfg.dayEnd, at), seen);
        case Fill(_, _, _) =>
          var plan := PlanFill(c.quotes, o, at, event);
          assert OrderOk(o, FillRows(c.activities, id));
          assert QuotesRising(c.quotes) by { FairQuotes(c, seen); }
          if plan.Wait? {
            RearmFair(c, o.instrument, at, event, seen);
            RearmKeepsRows(c, o.instrument, at, event);
          } else if plan.Take? {
            PlanIsFair(c.quotes, o, at, event, seen);
            PlanTakes(c.quotes, o, at, event);
            ExecuteFair(cfg, c, id, at, plan.scripted, plan.price, seen);
          }
      }
    }
  }

  lemma FairQuotes(c: Core, seen: seq<Command>)
    requires Fair(c, seen)
    ensures QuotesRising(c.quotes)
  {
  }

  lemma RearmKeepsRows(c: Core, k: Instrument, at: int, event: Event)
    ensures Rearm(c, k, at, event).activities == c.activities
  {
  }

  /** No row is later than the instant. */
  predicate RowsBy(activities: seq<Activity>, at: int) {
    forall a :: a in activities ==> a.sortTime <= at
  }

  lemma PoppedFair(c: Core, seen: seq<Command>)
    requires Fair(c, seen) && c.queue != []
    ensures Fair(Popped(c), seen) && Priced(c.orders, seen, c.queue[0].event)
  {
    hide RowsFair, RowsTally, OrdersTally, Priced;
    assert c.queue[0] in c.queue && forall t :: t in c.queue[1..] ==> t in c.queue;
    RowsFairStay(c, Popped(c), seen);
  }

  lemma {:induction false} DrainFair(cfg: Config, c: Core, now: int, seen: seq<Command>, limit: int)
    requires ValidConfig(cfg) && c.history != [] && Sane(cfg, c) && OrdersOk(c) && Fair(c, seen)
    requires RowsBy(c.activities, limit) && now <= limit
    ensures var r := Drain(cfg, c, now); r.Ok? ==> Fair(r.value, seen) && RowsBy(r.value.activities, limit)
    decreases Weight(c)
  {
    hide Fair, Apply, OrdersOk, Priced, Weight, EventWeight;
    if c.queue != [] && c.queue[0].at <= now {
      var head := c.queue[0];
      assert head in c.queue;
      SameOrders(c, Popped(c));
      PoppedFair(c, seen);
      ApplyFair(cfg, Popped(c), head.at, head.event, seen);
      ApplyOrders(cfg, Popped(c), head.at, head.event);
      ApplyShrinks(cfg, Popped(c), head.at, head.event);
      assert Weight(c) == Weight(Popped(c)) + EventWeight(c.quotes, Instruments(c.orders), head) by { PoppedWeight(c); }
      var next := Apply(cfg, Popped(c), head.at, head.event);
      if next.Ok? { DrainFair(cfg, next.value, now, seen, limit); }
    }
  }

  lemma PoppedWeight(c: Core)
    requires c.queue != []
    ensures Weight(c) == Weight(Popped(c)) + EventWeight(c.quotes, Instruments(c.orders), c.queue[0])
  {
  }

  // ---- one call ----

  ghost predicate ScriptsPriced(scripts: map<string, Script>, seen: seq<Command>) {
    forall s, client, price :: s in scripts && Names(client, s) && Prices(scripts[s].fills, price) ==>
      Scheduled(seen, client, price)
  }

  /** Every row is one a read has observed. */
  predicate RowsObserved(w: World) {
    w.core.activities != [] ==> w.materializedAt.Some? && RowsBy(w.core.activities, w.materializedAt.value)
  }

  ghost predicate WorldFair(cfg: Config, w: World, seen: seq<Command>) {
    WorldOk(cfg, w) && Fair(w.core, seen) && ScriptsPriced(w.scripts, seen) && RowsObserved(w)
  }

  /** The accepted scripts of a call or of a whole script of calls. */
  function SchedulesIn(cmd: Command, answer: Answer): seq<Command> {
    if cmd.ScheduleFills? && answer == Done then [cmd] else []
  }

  function SchedulesOf(cfg: Config, w: World, script: seq<Call>): seq<Command>
    requires w.core.history != []
    decreases |script|
  {
    if script == [] then []
    else match Step(cfg, w, script[0].now, script[0].cmd)
      case Err(_) => []
      case Ok(s) =>
        StepKeepsHistory(cfg, w, script[0].now, script[0].cmd);
        SchedulesIn(script[0].cmd, s.answer) + SchedulesOf(cfg, s.world, script[1..])
  }

  lemma ScheduledStays(seen: seq<Command>, more: seq<Command>, client: ClientId, price: real)
    requires Scheduled(seen, client, price)
    ensures Scheduled(seen + more, client, price)
  {
    var k :| 0 <= k < |seen| && seen[k].ScheduleFills? && Names(client, seen[k].client) && Prices(seen[k].fills, price);
    assert (seen + more)[k] == seen[k];
  }

  lemma FairPriceGrows(o: Order, series: seq<Quote>, seen: seq<Command>, more: seq<Command>, at: int, price: real)
    requires FairPrice(o, series, seen, at, price)
    ensures FairPrice(o, series, seen + more, at, price)
  {
    hide Scheduled, InForce;
    if Scheduled(seen, o.client, price) { ScheduledStays(seen, more, o.client, price); }
  }

  lemma FairGrows(c: Core, seen: seq<Command>, more: seq<Command>)
    requires Fair(c, seen)
    ensures Fair(c, seen + more)
  {
    hide FairPrice, RowsTally, OrdersTally, Scheduled, QuotesRising;
    forall a | a in c.activities ensures FairRow(c, seen + more, a) {
      assert FairRow(c, seen, a);
      if a.row.FillRow? {
        var o := c.orders[a.row.orderId];
        FairPriceGrows(o, SeriesOf(c.quotes, o.instrument), seen, more, a.sortTime, a.row.price);
      }
    }
    forall event | Priced(c.orders, seen, event) ensures Priced(c.orders, seen + more, event) {
      if event.Fill? && event.price.Some? {
        ScheduledStays(seen, more, c.orders[event.orderId].client, event.price.value);
      }
    }
  }

  lemma InForceStays(series: seq<Quote>, q: Quote, at: int, x: Quote)
    requires InForce(series, at, x) && q.at >= at
    ensures InForce(series + [q], at, x)
  {
  }

  lemma FairPriceQuoted(o: Order, series: seq<Quote>, q: Quote, seen: seq<Command>, at: int, price: real)
    requires FairPrice(o, series, seen, at, price) && q.at >= at
    ensures FairPrice(o, series + [q], seen, at, price)
  {
    hide Scheduled, InForce;
    if x :| && InForce(series, at, x) && LimitReached(o, Some(x))
            && (AtTouch(o, x, price) || Scheduled(seen, o.client, price)) {
      InForceStays(series, q, at, x);
    }
  }

  lemma {:induction false} RearmedPriced(orders: seq<Order>, seen: seq<Command>, queue: seq<Timed>, at: int,
                                         waiting: seq<Waiting>)
    requires QueuePriced(orders, seen, queue) && forall w :: w in waiting ==> Priced(orders, seen, w.event)
    ensures QueuePriced(orders, seen, Rearmed(queue, at, waiting))
    decreases |waiting|
  {
    hide Priced;
    if waiting != [] {
      assert waiting[0] in waiting && forall w :: w in waiting[1..] ==> w in waiting;
      InsertMembers(queue, MaxInt(at, waiting[0].since), waiting[0].event);
      RearmedPriced(orders, seen, Insert(queue, MaxInt(at, waiting[0].since), waiting[0].event), at, waiting[1..]);
    }
  }

  /** A quote no earlier than any row leaves every row fair. */
  lemma QuoteFair(c: Core, k: Instrument, q: Quote, seen: seq<Command>)
    requires Fair(c, seen) && RowsBy(c.activities, q.at)
    requires var series := SeriesOf(c.quotes, k); series != [] ==> q.at > series[|series| - 1].at
    ensures Fair(WithQuote(c, k, q), seen)
  {
    hide FairPrice, RowsTally, OrdersTally, Priced, Insert, Rearmed;
    var d := WithQuote(c, k, q);
    forall a | a in d.activities ensures FairRow(d, seen, a) {
      assert FairRow(c, seen, a);
      if a.row.FillRow? && c.orders[a.row.orderId].instrument == k {
        FairPriceQuoted(c.orders[a.row.orderId], SeriesOf(c.quotes, k), q, seen, a.sortTime, a.row.price);
      }
    }
    assert Rising(SeriesOf(c.quotes, k) + [q]);
    RearmedPriced(c.orders, seen, c.queue, q.at, ParkedOn(c.parked, k));
  }

  // ---- an order that is placed ----

  lemma {:induction false} PushFillsPriced(c: Core, start: int, id: nat, fills: seq<ScriptedFill>, seen: seq<Command>)
    requires QueuePriced(c.orders, seen, c.queue) && id < |c.orders|
    requires forall price :: Prices(fills, price) ==> Scheduled(seen, c.orders[id].client, price)
    ensures var d := PushFills(c, start, id, fills); d == c.(queue := d.queue) && QueuePriced(c.orders, seen, d.queue)
    decreases |fills|
  {
    hide Scheduled, Insert;
    if fills != [] {
      var f := fills[0];
      assert f.price.Some? ==> Prices(fills, f.price.value);
      InsertMembers(c.queue, start + f.offset, Fill(id, Some(f.qty), f.price));
      forall price | Prices(fills[1..], price) ensures Prices(fills, price) {
        var j :| 0 <= j < |fills[1..]| && fills[1..][j].price == Some(price);
        assert fills[j + 1].price == Some(price);
      }
      PushFillsPriced(Push(c, start + f.offset, Fill(id, Some(f.qty), f.price)), start, id, fills[1..], seen);
    }
  }

  lemma PushPriced(c: Core, at: int, event: Event, seen: seq<Command>)
    requires QueuePriced(c.orders, seen, c.queue) && Priced(c.orders, seen, event)
    ensures QueuePriced(c.orders, seen, Push(c, at, event).queue)
  {
    hide Priced;
    InsertMembers(c.queue, at, event);
  }

  lemma SchedulePriced(cfg: Config, c: Core, id: nat, openNow: bool, start: int, script: Script, expires: bool,
                       seen: seq<Command>)
    requires QueuePriced(c.orders, seen, c.queue) && id < |c.orders|
    requires forall price :: Prices(script.fills, price) ==> Scheduled(seen, c.orders[id].client, price)
    ensures var d := ScheduleOrder(cfg, c, id, openNow, start, script, expires);
            d == c.(queue := d.queue) && QueuePriced(c.orders, seen, d.queue)
  {
    hide QueuePriced, Prices, Scheduled, Insert, NextClose, PushFills;
    ScheduleKeeps(cfg, c, id, openNow, start, script, expires);
    PushPriced(c, start, Start(id), seen);
    var started := if openNow then c else Push(c, start, Start(id));
    PushFillsPriced(started, start, id, script.fills, seen);
    var pushed := PushFills(started, start, id, script.fills);
    if script.fills != [] {
      PushPriced(pushed, start + script.fills[|script.fills| - 1].offset, Terminal(id, script.terminal), seen);
    }
    PushPriced(started, start + cfg.fillLatency, Fill(id, None, None), seen);
    var filled :=
      if script.fills != [] then
        if script.terminal != Filled
        then Push(pushed, start + script.fills[|script.fills| - 1].offset, Terminal(id, script.terminal)) else pushed
      else if script.terminal == Filled then Push(started, start + cfg.fillLatency, Fill(id, None, None))
      else started;
    var close := NextClose(cfg.session, start);
    if close.Some? { PushPriced(filled, close.value, Expire(id), seen); }
  }

  lemma {:induction false} NothingTraded(activities: seq<Activity>, id: nat)
    requires SaneRows(activities, id)
    ensures QtyTraded(activities, id) == 0.0 && ValueTraded(activities, id) == 0.0
    decreases |activities|
  {
    if activities != [] {
      assert activities[|activities| - 1] in activities;
      NothingTraded(activities[..|activities| - 1], id);
    }
  }

  lemma AddedFair(c: Core, o: Order, draws: nat, seen: seq<Command>)
    requires Fair(c, seen) && SaneRows(c.activities, |c.orders|) && o.filledQty == 0.0 && o.notional == 0.0
    ensures Fair(c.(orders := c.orders + [o], draws := draws), seen)
  {
    hide RowsFair, RowsTally, QueuePriced, ParkedPriced, QtyTraded, ValueTraded;
    var d := c.(orders := c.orders + [o], draws := draws);
    NothingTraded(c.activities, |c.orders|);
    assert KeepTerms(c.orders, d.orders);
    PricedStay(c.orders, d.orders, seen, c.queue, c.parked);
    FairStays(c, d, seen);
  }

  lemma ScriptIsScheduled(w: World, client: string, seen: seq<Command>, named: ClientId, price: real)
    requires ScriptsPriced(w.scripts, seen) && Names(named, client) && Prices(ScriptFor(w, client).fills, price)
    ensures Scheduled(seen, named, price)
  {
    hide Scheduled;
  }

  lemma BookedFair(cfg: Config, w: World, now: int, r: Request, openNow: bool, start: int, seen: seq<Command>)
    requires WorldFair(cfg, w, seen)
    ensures Fair(Booked(cfg, w, now, r, openNow, start), seen)
    ensures Booked(cfg, w, now, r, openNow, start).activities == w.core.activities
  {
    hide Fair, ScheduleOrder, Prices, Scheduled, ScriptsPriced, OrdersOk, ChecksOk;
    var order, draws := NewOrder(cfg, w, now, r, openNow), w.core.draws + (if r.client == "" then 2 else 1);
    var core := w.core.(orders := w.core.orders + [order], draws := draws);
    AddedFair(w.core, order, draws, seen);
    var script, expires := ScriptFor(w, r.client), r.day && r.instrument.assetClass != Crypto;
    forall price | Prices(script.fills, price) ensures Scheduled(seen, order.client, price) {
      ScriptIsScheduled(w, r.client, seen, order.client, price);
    }
    assert core.orders[|w.core.orders|] == order;
    assert QueuePriced(core.orders, seen, core.queue) by { FairIsPriced(core, seen); }
    SchedulePriced(cfg, core, |w.core.orders|, openNow, start, script, expires, seen);
    QueueFair(core, ScheduleOrder(cfg, core, |w.core.orders|, openNow, start, script, expires), seen);
  }

  lemma FairIsPriced(c: Core, seen: seq<Command>)
    requires Fair(c, seen)
    ensures QueuePriced(c.orders, seen, c.queue)
  {
  }

  lemma QueueFair(c: Core, d: Core, seen: seq<Command>)
    requires Fair(c, seen) && d == c.(queue := d.queue) && QueuePriced(d.orders, seen, d.queue)
    ensures Fair(d, seen)
  {
    hide RowsFair, RowsTally, OrdersTally, QueuePriced, ParkedPriced;
    assert KeepTerms(c.orders, d.orders);
    FairStays(c, d, seen);
  }

  lemma FewerScripts(scripts: map<string, Script>, client: string, seen: seq<Command>)
    requires ScriptsPriced(scripts, seen)
    ensures ScriptsPriced(scripts - {client}, seen)
  {
    hide Scheduled, Prices;
  }

  lemma PlaceFair(cfg: Config, w: World, now: int, r: Request, seen: seq<Command>)
    requires WorldFair(cfg, w, seen)
    ensures var v := PlaceOrder(cfg, w, now, r).world;
            Fair(v.core, seen) && ScriptsPriced(v.scripts, seen) && RowsObserved(v)
  {
    hide Fair, Booked, RefusalCode, TotalQty, ScriptsPriced, WorldOk;
    FewerScripts(w.scripts, r.client, seen);
    var openNow := r.instrument.assetClass == Crypto || IsOpen(cfg.session, now);
    var start := if openNow then Some(now) else NextOpen(cfg.session, now);
    if start.Some? { BookedFair(cfg, w, now, r, openNow, start.value, seen); }
  }

  lemma MaterializeFair(cfg: Config, w: World, now: int, seen: seq<Command>)
    requires ValidConfig(cfg) && WorldFair(cfg, w, seen)
    ensures var m := Materialize(cfg, w, now); m.Ok? ==> WorldFair(cfg, m.value, seen)
  {
    hide Fair, ScriptsPriced, OrdersOk, Sane, ChecksOk, AllSound, Checked, Drain;
    MaterializeOk(cfg, w, now);
    var limit := Observed(w.materializedAt, now).value;
    DrainFair(cfg, w.core, now, seen, limit);
  }

  lemma ActFair(cfg: Config, w: World, now: int, cmd: Command, seen: seq<Command>)
    requires ValidConfig(cfg) && WorldFair(cfg, w, seen) && Materializes(cmd)
    ensures var r := Act(cfg, w, now, cmd);
            r.Ok? ==> var v := r.value.world; Fair(v.core, seen) && ScriptsPriced(v.scripts, seen) && RowsObserved(v)
  {
    hide Fair, PlaceOrder, ScriptsPriced, AllSound, WorldOk;
    FairHasHistory(cfg, w, seen);
    match cmd {
      case Read =>
      case SeedPosition(symbol, _, _, _, _) =>
        if symbol !in StateAt(w.core.history, now).holdings {
          QueueAndRowsFair(w.core, SeedCore(w.core, now, cmd), seen);
        }
      case Place(r) => PlaceFair(cfg, w, now, r, seen);
      case Cancel(id) =>
        if id < |w.core.orders| {
          OneOrderFair(w.core, id, Finished(w.core.orders[id], Canceled, now), seen);
        }
    }
  }

  lemma QueueAndRowsFair(c: Core, d: Core, seen: seq<Command>)
    requires Fair(c, seen) && d == c.(history := d.history)
    ensures Fair(d, seen)
  {
    hide RowsFair, RowsTally, OrdersTally, QueuePriced, ParkedPriced;
    assert KeepTerms(c.orders, d.orders);
    FairStays(c, d, seen);
  }

  lemma OneMoreScript(scripts: map<string, Script>, seen: seq<Command>, cmd: Command)
    requires ScriptsPriced(scripts, seen) && cmd.ScheduleFills?
    ensures ScriptsPriced(scripts[cmd.client := Script(cmd.fills, cmd.terminal)], seen + [cmd])
  {
    hide Scheduled, Prices, Names;
    var more := scripts[cmd.client := Script(cmd.fills, cmd.terminal)];
    forall s, client, price | s in more && Names(client, s) && Prices(more[s].fills, price)
      ensures Scheduled(seen + [cmd], client, price)
    {
      if s == cmd.client { JustScheduled(seen, cmd, client, price); }
      else { ScheduledStays(seen, [cmd], client, price); }
    }
  }

  lemma JustScheduled(seen: seq<Command>, cmd: Command, client: ClientId, price: real)
    requires cmd.ScheduleFills? && Names(client, cmd.client) && Prices(cmd.fills, price)
    ensures Scheduled(seen + [cmd], client, price)
  {
    assert (seen + [cmd])[|seen|] == cmd;
  }

  lemma ConfigureFair(cfg: Config, w: World, cmd: Command, seen: seq<Command>)
    requires WorldFair(cfg, w, seen) && !Materializes(cmd)
    ensures var s := Configure(w, cmd);
            var v, more := s.world, seen + SchedulesIn(cmd, s.answer);
            Fair(v.core, more) && ScriptsPriced(v.scripts, more) && RowsObserved(v)
  {
    hide Fair, ScriptsPriced, WorldOk, ScheduleAccepted, Rearmed;
    assert seen + [] == seen;
    match cmd {
      case SetQuote(k, q, allowCrossed) =>
        if QuoteAccepted(w, k, q, allowCrossed) { QuoteFair(w.core, k, q, seen); }
      case ScheduleFills(_, _, _) =>
        FairGrows(w.core, seen, [cmd]);
        OneMoreScript(w.scripts, seen, cmd);
      case OverfillNext(_) =>
      case SeedPosition(_, _, _, _, _) =>
    }
  }

  lemma StepFair(cfg: Config, w: World, now: int, cmd: Command, seen: seq<Command>)
    requires ValidConfig(cfg) && WorldFair(cfg, w, seen)
    ensures var s := Step(cfg, w, now, cmd);
            s.Ok? ==> WorldFair(cfg, s.value.world, seen + SchedulesIn(cmd, s.value.answer))
  {
    hide Fair, ScriptsPriced, WorldOk, Act, Configure, Materialize, RowsObserved;
    assert seen + [] == seen;
    FairHasHistory(cfg, w, seen);
    StepOk(cfg, w, now, cmd);
    if Materializes(cmd) {
      MaterializeFair(cfg, w, now, seen);
      var m := Materialize(cfg, w, now);
      if m.Ok? { ActFair(cfg, m.value, now, cmd, seen); }
    } else {
      ConfigureFair(cfg, w, cmd, seen);
    }
  }

  /** Over every script of calls, faults included: every FILL row traded at a positive price within its order's limit,
      at the ask a buy pays or the bid a sell gets of a quote in force that reached the limit, or at a price an
      accepted script names for the order; every row tells what its order had traded; and every order is the sum of
      its rows. */
  lemma {:induction false} RunTradesFairly(cfg: Config, w: World, script: seq<Call>, seen: seq<Command>)
    requires ValidConfig(cfg) && WorldFair(cfg, w, seen)
    ensures var r := Run(cfg, w, script);
            r.Ok? ==> WorldFair(cfg, r.value.world, seen + SchedulesOf(cfg, w, script))
    decreases |script|
  {
    hide WorldFair, Step;
    assert w.core.history != [] by { FairHasHistory(cfg, w, seen); }
    if script == [] {
      assert seen + [] == seen;
    } else {
      StepFair(cfg, w, script[0].now, script[0].cmd, seen);
      var s := Step(cfg, w, script[0].now, script[0].cmd);
      if s.Ok? {
        var more := seen + SchedulesIn(script[0].cmd, s.value.answer);
        FairHasHistory(cfg, s.value.world, more);
        RunTradesFairly(cfg, s.value.world, script[1..], more);
        assert more + SchedulesOf(cfg, s.value.world, script[1..]) == seen + SchedulesOf(cfg, w, script);
      }
    }
  }

  lemma FairHasHistory(cfg: Config, w: World, seen: seq<Command>)
    requires WorldFair(cfg, w, seen)
    ensures w.core.history != []
  {
  }

  lemma FreshFair(cfg: Config, createdAt: int, cash: real)
    ensures WorldFair(cfg, Fresh(createdAt, cash), [])
  {
    FreshOk(cfg, createdAt, cash);
  }

  // ---- what this says of one row and one order ----

  /** From a new simulator on: a row of an order nothing was scripted for trades at the touch of a quote in force, a row
      of a limit order within its limit on a market that reached it. */
  lemma {:induction false} UnscriptedRowsTradeAtTheTouch(cfg: Config, createdAt: int, cash: real, script: seq<Call>,
                                                         k: nat)
    requires ValidConfig(cfg) && Run(cfg, Fresh(createdAt, cash), script).Ok?
    requires var c := Run(cfg, Fresh(createdAt, cash), script).value.world.core;
             k < |c.activities| && c.activities[k].row.FillRow?
    ensures var c, a := Run(cfg, Fresh(createdAt, cash), script).value.world.core,
                        Run(cfg, Fresh(createdAt, cash), script).value.world.core.activities[k];
            && a.row.orderId < |c.orders|
            && var o, price := c.orders[a.row.orderId], a.row.price;
               var series, seen := SeriesOf(c.quotes, o.instrument), SchedulesOf(cfg, Fresh(createdAt, cash), script);
               && price > 0.0
               && (o.limit.Some? && o.side == Buy ==> price <= o.limit.value)
               && (o.limit.Some? && o.side == Sell ==> price >= o.limit.value)
               && (o.limit.Some? || !Scheduled(seen, o.client, price) ==>
                     exists x :: && InForce(series, a.sortTime, x)
                                 && (o.limit.Some? && o.side == Buy ==> x.ask <= o.limit.value)
                                 && (o.limit.Some? && o.side == Sell ==> x.bid >= o.limit.value)
                                 && (!Scheduled(seen, o.client, price) ==>
                                       price == if o.side == Buy then x.ask else x.bid))
  {
    hide WorldFair, Fair, Run, SchedulesOf, Scheduled, InForce;
    FreshFair(cfg, createdAt, cash);
    RunTradesFairly(cfg, Fresh(createdAt, cash), script, []);
    var w := Run(cfg, Fresh(createdAt, cash), script).value.world;
    var seen := SchedulesOf(cfg, Fresh(createdAt, cash), script);
    assert [] + seen == seen;
    RowIsFair(cfg, w, seen, k);
  }

  lemma RowIsFair(cfg: Config, w: World, seen: seq<Command>, k: nat)
    requires WorldFair(cfg, w, seen) && k < |w.core.activities|
    ensures FairRow(w.core, seen, w.core.activities[k])
  {
  }

  /** And an order's filled quantity and average price are the sum and the weighted average of its rows. */
  lemma {:induction false} OrdersAreTheirRows(cfg: Config, createdAt: int, cash: real, script: seq<Call>, i: nat)
    requires ValidConfig(cfg) && Run(cfg, Fresh(createdAt, cash), script).Ok?
    requires i < |Run(cfg, Fresh(createdAt, cash), script).value.world.core.orders|
    ensures var c := Run(cfg, Fresh(createdAt, cash), script).value.world.core;
            var o, qty, value := c.orders[i], QtyTraded(c.activities, i), ValueTraded(c.activities, i);
            && o.filledQty == qty && (qty == 0.0 <==> o.avgPrice.None?)
            && (o.avgPrice.Some? ==> o.avgPrice.value == value / qty)
            && (o.status == Filled <==> qty >= o.qty)
  {
    hide WorldFair, Fair, Run, SchedulesOf;
    FreshFair(cfg, createdAt, cash);
    RunTradesFairly(cfg, Fresh(createdAt, cash), script, []);
    OrderIsItsRows(cfg, Run(cfg, Fresh(createdAt, cash), script).value.world,
                   [] + SchedulesOf(cfg, Fresh(createdAt, cash), script), i);
  }

  lemma {:induction false} OrderIsItsRows(cfg: Config, w: World, seen: seq<Command>, i: nat)
    requires WorldFair(cfg, w, seen) && i < |w.core.orders|
    ensures var o := w.core.orders[i];
            && o.filledQty == QtyTraded(w.core.activities, i) && o.notional == ValueTraded(w.core.activities, i)
            && (o.filledQty != 0.0 ==> o.avgPrice == Some(o.notional / o.filledQty))
            && (o.filledQty == 0.0 ==> o.avgPrice == None) && (o.status == Filled <==> o.filledQty >= o.qty)
  {
    hide QtyTraded, ValueTraded;
    assert OrderOk(w.core.orders[i], FillRows(w.core.activities, i));
  }
}
