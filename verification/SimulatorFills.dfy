/** What one event does, said of the market, the order and the books alone: at which price a fill trades, when a limit
    fill waits, what breaks the script, and how the order, the feed, cash and the position move. */
module SimulatorFills {
  import opened Common
  import opened TradingSession
  import opened SimulatorModel
  import opened SimulatorOrders
  import opened SimulatorTimeline

  // ---- where an event goes ----

  /** The event stands in the queue behind everything that is not later and before everything that is. */
  ghost predicate Slotted(before: seq<Timed>, after: seq<Timed>, at: int, event: Event) {
    exists k :: && 0 <= k <= |before| && after == before[..k] + [Timed(at, event)] + before[k..]
                && (forall i :: 0 <= i < k ==> before[i].at <= at)
                && (k < |before| ==> before[k].at > at)
  }

  /** How many leading events are not later. */
  function NotLater(queue: seq<Timed>, at: int): (k: nat)
    ensures k <= |queue| && (forall i :: 0 <= i < k ==> queue[i].at <= at) && (k < |queue| ==> queue[k].at > at)
  {
    if queue == [] || at < queue[0].at then 0 else 1 + NotLater(queue[1..], at)
  }

  lemma {:induction false} InsertedAt(queue: seq<Timed>, at: int, event: Event)
    ensures var k := NotLater(queue, at); Insert(queue, at, event) == queue[..k] + [Timed(at, event)] + queue[k..]
  {
    if queue != [] && at >= queue[0].at {
      InsertedAt(queue[1..], at, event);
      var k := NotLater(queue[1..], at);
      assert queue[..k + 1] == [queue[0]] + queue[1..][..k] && queue[k + 1..] == queue[1..][k..];
    }
  }

  lemma {:induction false} InsertSlots(queue: seq<Timed>, at: int, event: Event)
    ensures Slotted(queue, Insert(queue, at, event), at, event)
  {
    InsertedAt(queue, at, event);
    var k := NotLater(queue, at);
    assert Insert(queue, at, event) == queue[..k] + [Timed(at, event)] + queue[k..];
  }

  /** The earliest quote after the instant. */
  ghost predicate FirstLater(series: seq<Quote>, at: int, q: Quote) {
    q in series && q.at > at && forall x :: x in series && x.at > at ==> q.at <= x.at
  }

  lemma {:induction false} LaterStartsFirst(series: seq<Quote>, at: int)
    requires Rising(series)
    ensures Later(series, at) == [] <==> forall x :: x in series ==> x.at <= at
    ensures Later(series, at) != [] ==> FirstLater(series, at, Later(series, at)[0])
  {
    if series != [] {
      assert Rising(series[1..]) by {
        assert forall i :: 0 <= i < |series| - 1 ==> series[1..][i] == series[i + 1];
      }
      LaterStartsFirst(series[1..], at);
      assert series == [series[0]] + series[1..];
      if series[0].at > at {
        forall x | x in series ensures series[0].at <= x.at {
          var i :| 0 <= i < |series| && series[i] == x;
        }
      }
    }
  }

  lemma NoneLater(series: seq<Quote>, at: int)
    requires forall x :: x in series ==> x.at <= at
    ensures !exists q :: FirstLater(series, at, q)
  {
  }

  // ---- whether a fill trades, and at what price ----

  /** The latest quote's touch: a buy pays the ask, a sell gets the bid. */
  ghost predicate TradesAt(o: Order, event: Event, q: Option<Quote>, price: Option<real>)
    requires event.Fill?
  {
    && (event.price.Some? ==> price == event.price)
    && (event.price.None? && q.None? ==> price == None)
    && (event.price.None? && q.Some? && o.side == Buy ==> price == Some(q.value.ask))
    && (event.price.None? && q.Some? && o.side == Sell ==> price == Some(q.value.bid))
  }

  /** A limit buy is reached by an ask at or below its limit, a limit sell by a bid at or above it. */
  predicate LimitReached(o: Order, q: Option<Quote>) {
    o.limit.Some? ==>
      && q.Some?
      && (o.side == Buy ==> q.value.ask <= o.limit.value)
      && (o.side == Sell ==> q.value.bid >= o.limit.value)
  }

  predicate BeyondLimit(o: Order, price: real) {
    o.limit.Some? && ((o.side == Buy && price > o.limit.value) || (o.side == Sell && price < o.limit.value))
  }

  /** How much is still open on the order, never negative. */
  predicate IsOpenQty(o: Order, rest: real) {
    rest == o.qty - o.filledQty || (rest == 0.0 && o.filledQty >= o.qty)
  }

  lemma OpenQty(o: Order)
    ensures IsOpenQty(o, o.Remaining()) && o.Remaining() >= 0.0 && o.Remaining() >= o.qty - o.filledQty
  {
  }

  /** What the fill takes: the scripted quantity, or all that is open. */
  predicate Takes(o: Order, event: Event, qty: real)
    requires event.Fill?
  {
    if event.qty.Some? then qty == event.qty.value
    else qty >= 0.0 && qty >= o.qty - o.filledQty && (qty == 0.0 || qty == o.qty - o.filledQty)
  }

  ghost predicate PriceError(o: Order, event: Event, price: Option<real>, e: ScriptError)
    requires event.Fill?
  {
    if price.Some? && BeyondLimit(o, price.value) then e == WorseThanLimit
    else (price.None? || price.value <= 0.0) && e == NoUsableQuote
  }

  /** The plan of a fill, from the latest quote alone. */
  lemma PlanIs(quotes: map<Instrument, seq<Quote>>, o: Order, at: int, event: Event, q: Option<Quote>,
               price: Option<real>, qty: real)
    requires event.Fill? && Rising(SeriesOf(quotes, o.instrument)) && IsLatest(SeriesOf(quotes, o.instrument), at, q)
    requires TradesAt(o, event, q, price) && Takes(o, event, qty)
    ensures var plan := PlanFill(quotes, o, at, event);
            && (plan.Wait? <==> !LimitReached(o, q))
            && (plan == Refuse(WorseThanLimit) <==> LimitReached(o, q) && price.Some? && BeyondLimit(o, price.value))
            && (plan == Refuse(NoUsableQuote)
                <==> && LimitReached(o, q) && !(price.Some? && BeyondLimit(o, price.value))
                     && (price.None? || price.value <= 0.0))
            && (plan == Refuse(FillExceedsRemaining)
                <==> && LimitReached(o, q) && price.Some? && price.value > 0.0 && !BeyondLimit(o, price.value)
                     && (qty <= 0.0 || (qty > 0.0 && qty > o.qty - o.filledQty)))
            && (plan.Take? ==> plan.scripted == qty && Some(plan.price) == price)
            && (plan.Refuse? ==> plan.error == WorseThanLimit || plan.error == NoUsableQuote
                                 || plan.error == FillExceedsRemaining)
  {
    QuoteAtIsTheLatest(SeriesOf(quotes, o.instrument), at);
  }

  // ---- a fill that waits ----

  /** The fill waits for the instrument's next quote: queued at the first later one, or parked when there is none. */
  ghost predicate Waits(c: Core, d: Core, o: Order, at: int, event: Event) {
    var series := SeriesOf(c.quotes, o.instrument);
    if exists q :: FirstLater(series, at, q) then
      d == c.(queue := d.queue) && exists q :: FirstLater(series, at, q) && Slotted(c.queue, d.queue, q.at, event)
    else
      d == c.(parked := c.parked[o.instrument := ParkedOn(c.parked, o.instrument) + [Waiting(at, event)]])
  }

  /** A limit fill whose limit the latest quote does not reach waits, and nothing else happens; any other fill does
      not. */
  lemma UnreachedWaits(cfg: Config, c: Core, at: int, event: Event, q: Option<Quote>)
    requires c.history != [] && event.Fill? && event.orderId < |c.orders| && !IsTerminal(c.orders[event.orderId].status)
    requires var series := SeriesOf(c.quotes, c.orders[event.orderId].instrument);
             Rising(series) && IsLatest(series, at, q)
    requires !LimitReached(c.orders[event.orderId], q)
    ensures var r := Apply(cfg, c, at, event); r.Ok? && Waits(c, r.value, c.orders[event.orderId], at, event)
  {
    hide Slotted, Execute, QuoteAt, Later, Insert, IsLatest, Rising, FirstLater;
    var o := c.orders[event.orderId];
    var series := SeriesOf(c.quotes, o.instrument);
    QuoteAtIsTheLatest(series, at);
    assert q == QuoteAt(series, at);
    LaterStartsFirst(series, at);
    if Later(series, at) == [] { NoneLater(series, at); }
    var later := Later(series, at);
    if later != [] { InsertSlots(c.queue, later[0].at, event); }
  }

  // ---- a fill that trades ----

  /** The order after a fill: the quantity and its value added, the average over all of it, filled once nothing is
      open. */
  ghost predicate OrderFilled(o: Order, n: Order, at: int, qty: real, price: real) {
    var filled, paid := o.filledQty + qty, o.notional + qty * price;
    && n == o.(filledQty := n.filledQty, notional := n.notional, avgPrice := n.avgPrice, status := n.status,
               updatedAt := at, filledAt := n.filledAt, fillEvents := o.fillEvents + 1,
               overfill := 0.0, overfilled := if o.overfill == 0.0 then o.overfilled else o.overfill)
    && n.filledQty == filled && n.notional == paid
    && n.avgPrice == (if filled == 0.0 then None else Some(paid / filled))
    && (filled >= o.qty ==> n.status == Filled && n.filledAt == Some(at))
    && (filled < o.qty ==> n.status == PartiallyFilled && n.filledAt == o.filledAt)
  }

  lemma WithFillIs(o: Order, at: int, scripted: real, price: real)
    ensures OrderFilled(o, WithFill(o, at, scripted, price), at, scripted + o.overfill, price)
  {
  }

  /** One FILL activity, visible after the activity lag: the order's side and symbol, what was traded at which price,
      the cumulative and the open quantity and the status as the fill left them. */
  predicate FillReported(cfg: Config, c: Core, a: Activity, id: nat, at: int, qty: real, price: real)
    requires id < |c.orders|
  {
    var o := c.orders[id];
    var filled := o.filledQty + qty;
    && a.id == c.draws && a.visibleAt == at + cfg.activityLag && a.sortTime == at
    && a.row == FillRow(id, o.side, o.instrument.symbol, qty, price, filled,
                        if filled < o.qty then o.qty - filled else 0.0,
                        if filled >= o.qty then Filled else PartiallyFilled)
  }

  /** Cash falls by what a buy costs and rises by what a sell brings; only the traded symbol's quantity moves. */
  ghost predicate Moved(s: State, n: State, side: Side, k: Instrument, multiplier: real, qty: real, price: real) {
    && (side == Buy ==> n.cash == s.cash - qty * price * multiplier)
    && (side == Sell ==> n.cash == s.cash + qty * price * multiplier)
    && OnlyMoves(s.holdings, n.holdings, k.symbol)
    && PositionMoved(s.holdings, n.holdings, k, multiplier, if side == Buy then qty else -qty, price)
  }

  ghost predicate OnlyMoves(before: map<string, Holding>, after: map<string, Holding>, symbol: string) {
    forall other :: other != symbol ==>
      (other in after <==> other in before) && (other in before ==> after[other] == before[other])
  }

  /** The average entry price of a position that grows weighs what was held and what was added by their quantities. */
  lemma AverageIs(had: real, avgEntry: real, change: real, price: real)
    requires had + change != 0.0
    ensures Blended(had, avgEntry, change, price) * (had + change) == had * avgEntry + change * price
  {
  }

  /** The traded position: gone at zero; at the fill's price where it opens or changes sides; at the average of both
      where it grows; and at its old price where it shrinks. */
  ghost predicate PositionMoved(before: map<string, Holding>, after: map<string, Holding>, k: Instrument,
                                multiplier: real, change: real, price: real) {
    var symbol := k.symbol;
    var had := if symbol in before then before[symbol].qty else 0.0;
    var has := had + change;
    if has == 0.0 then symbol !in after
    else
      && symbol in after && after[symbol].qty == has
      && (symbol !in before || (had > 0.0 && has < 0.0) || (had <= 0.0 && has > 0.0) ==>
            after[symbol] == Holding(k.assetClass, has, price, multiplier))
      && (symbol in before && ((had > 0.0 && has > had) || (had <= 0.0 && has < had)) ==>
            && after[symbol] == before[symbol].(qty := has, avgEntry := after[symbol].avgEntry)
            && after[symbol].avgEntry == Blended(had, before[symbol].avgEntry, change, price))
      && (symbol in before && ((had > 0.0 && 0.0 < has <= had) || (had <= 0.0 && had <= has < 0.0)) ==>
            after[symbol] == before[symbol].(qty := has))
  }

  lemma CostsWhatItTrades(o: Order, qty: real, price: real)
    ensures Cost(o, qty, price) == if o.side == Buy then qty * price * o.multiplier else -(qty * price * o.multiplier)
  {
    assert -qty * price == -(qty * price);
    assert -(qty * price) * o.multiplier == -(qty * price * o.multiplier);
  }

  lemma FilledStateMoves(s: State, o: Order, at: int, qty: real, price: real)
    ensures FilledState(s, o, at, qty, price).at == at
    ensures Moved(s, FilledState(s, o, at, qty, price), o.side, o.instrument, o.multiplier, qty, price)
  {
    hide HoldingsAfterFill, PositionMoved, Cost;
    CostsWhatItTrades(o, qty, price);
    HoldingsMoved(s.holdings, o, qty, price);
  }

  lemma HoldingsMoved(holdings: map<string, Holding>, o: Order, qty: real, price: real)
    ensures var after := HoldingsAfterFill(holdings, o, qty, price);
            && OnlyMoves(holdings, after, o.instrument.symbol)
            && PositionMoved(holdings, after, o.instrument, o.multiplier, if o.side == Buy then qty else -qty, price)
  {
    hide Blended;
    var symbol, change := o.instrument.symbol, Signed(o.side, qty);
    var after := HoldingsAfterFill(holdings, o, qty, price);
    assert PositionMoved(holdings, after, o.instrument, o.multiplier, change, price);
  }

  /** The state in force from the instant on is the new one, and every earlier one is as it was. */
  ghost predicate InForceFrom(before: seq<State>, after: seq<State>, at: int, n: State) {
    && after != [] && (forall u :: u >= at ==> StateAt(after, u) == n)
    && (before != [] ==> forall u :: before[0].at <= u < at ==> StateAt(after, u) == StateAt(before, u))
  }

  lemma RecordInForce(history: seq<State>, s: State)
    requires history != [] && HistoryRising(history) && LastAt(history) <= s.at
    ensures InForceFrom(history, Record(history, s), s.at, s)
  {
    RecordRises(history, s);
    var after := Record(history, s);
    forall u | u >= s.at ensures StateAt(after, u) == s { StateAtEnd(after, u); }
    forall u | history[0].at <= u < s.at ensures StateAt(after, u) == StateAt(history, u) {
      RecordKeepsPast(history, s, u);
    }
  }

  /** A sell trades only from a position that covers it, unless the order was accepted as an oversell or was ever
      overfilled. */
  ghost predicate Uncovered(c: Core, o: Order, at: int, qty: real)
    requires c.history != []
  {
    var holdings := StateAt(c.history, at).holdings;
    var had := if o.instrument.symbol in holdings then holdings[o.instrument.symbol].qty else 0.0;
    o.side == Sell && had < qty && !o.oversell && o.overfill == 0.0 && o.overfilled == 0.0
  }

  /** The order, the feed, cash and the position after a fill; what it owes is in the queue and the batches. */
  ghost predicate Trades(cfg: Config, c: Core, d: Core, id: nat, at: int, qty: real, price: real)
    requires c.history != [] && id < |c.orders|
  {
    && d == c.(orders := d.orders, activities := d.activities, history := d.history, draws := c.draws + 1,
               queue := d.queue, batches := d.batches)
    && |d.orders| == |c.orders| && (forall i :: 0 <= i < |c.orders| && i != id ==> d.orders[i] == c.orders[i])
    && OrderFilled(c.orders[id], d.orders[id], at, qty, price)
    && (exists a :: d.activities == c.activities + [a] && FillReported(cfg, c, a, id, at, qty, price))
    && (exists n :: InForceFrom(c.history, d.history, at, n)
                    && Moved(StateAt(c.history, at), n, c.orders[id].side, c.orders[id].instrument,
                             c.orders[id].multiplier, qty, price))
  }

  lemma ExecutedIs(cfg: Config, c: Core, id: nat, at: int, scripted: real, price: real)
    requires id < |c.orders|
    ensures var d, qty := Executed(cfg, c, id, at, scripted, price), scripted + c.orders[id].overfill;
            && d == c.(orders := d.orders, activities := d.activities, draws := c.draws + 1)
            && |d.orders| == |c.orders| && (forall i :: 0 <= i < |c.orders| && i != id ==> d.orders[i] == c.orders[i])
            && OrderFilled(c.orders[id], d.orders[id], at, qty, price)
            && (exists a :: d.activities == c.activities + [a] && FillReported(cfg, c, a, id, at, qty, price))
  {
    hide Traded;
    var d := Executed(cfg, c, id, at, scripted, price);
    WithFillIs(c.orders[id], at, scripted, price);
    var a := d.activities[|c.activities|];
    assert d.activities == c.activities + [a];
    assert FillReported(cfg, c, a, id, at, scripted + c.orders[id].overfill, price);
  }

  lemma FilledKeepsTerms(o: Order, n: Order, at: int, qty: real, price: real)
    requires OrderFilled(o, n, at, qty, price)
    ensures n.side == o.side && n.instrument == o.instrument && n.multiplier == o.multiplier && n.oversell == o.oversell
    ensures n.overfilled == if o.overfill == 0.0 then o.overfilled else o.overfill
  {
  }

  lemma {:induction false} AccrueAllFails(cfg: Config, c: Core, at: int, charges: seq<Charge>)
    requires cfg.fees.Some?
    ensures var r := AccrueAll(cfg, c, at, charges); r.Err? ==> r.error == FillAfterBatchPosted
    decreases |charges|
  {
    if charges != [] {
      var x := charges[0];
      var r := Accrue(c, at, x.key, PostsAt(cfg, x.key), x.amount, x.proceeds, x.units);
      if r.Ok? { AccrueAllFails(cfg, r.value, at, charges[1..]); }
    }
  }

  lemma AccrueFeesFails(cfg: Config, c: Core, o: Order, at: int, qty: real, price: real, suffix: nat)
    ensures var r := AccrueFees(cfg, c, o, at, qty, price, suffix); r.Err? ==> r.error == FillAfterBatchPosted
  {
    if cfg.fees.Some? {
      var own := OwnFee(cfg, o, at, qty, price, suffix);
      var queued := if own.Some? then Push(c, own.value.at, own.value.event) else c;
      AccrueAllFails(cfg, queued, at, Charges(cfg, o, at, qty, price));
    }
  }

  lemma BookFillIs(history: seq<State>, o: Order, at: int, qty: real, price: real)
    requires history != [] && HistoryRising(history) && LastAt(history) <= at
    ensures var r, s := BookFill(history, o, at, qty, price), StateAt(history, at);
            && (r.Ok? ==> exists n :: InForceFrom(history, r.value, at, n)
                                     && Moved(s, n, o.side, o.instrument, o.multiplier, qty, price))
            && (r.Err? <==> && o.side == Sell && !o.oversell && o.overfilled == 0.0
                            && (if o.instrument.symbol in s.holdings then s.holdings[o.instrument.symbol].qty
                                else 0.0) < qty)
            && (r.Err? ==> r.error == SellExceedsPosition)
  {
    hide StateAt, InForceFrom, Moved, FilledState, Record;
    FilledStateMoves(StateAt(history, at), o, at, qty, price);
    RecordInForce(history, FilledState(StateAt(history, at), o, at, qty, price));
  }

  /** Executing a fill breaks the script exactly for an uncovered sell, or where a batch is posted already; otherwise it
      trades. */
  lemma ExecuteTrades(cfg: Config, c: Core, id: nat, at: int, scripted: real, price: real)
    requires InOrder(c, at) && id < |c.orders|
    ensures var r, qty := Execute(cfg, c, id, at, scripted, price), scripted + c.orders[id].overfill;
            && (r == Err(SellExceedsPosition) <==> Uncovered(c, c.orders[id], at, qty))
            && (r.Err? ==> r.error == SellExceedsPosition || r.error == FillAfterBatchPosted)
            && (r.Ok? ==> Trades(cfg, c, r.value, id, at, qty, price))
  {
    hide AccrueFees, BookFill, Executed, StateAt, OrderFilled, Moved, InForceFrom, FillReported;
    var qty := scripted + c.orders[id].overfill;
    ExecutedIs(cfg, c, id, at, scripted, price);
    var executed := Executed(cfg, c, id, at, scripted, price);
    var o := executed.orders[id];
    FilledKeepsTerms(c.orders[id], o, at, qty, price);
    BookFillIs(c.history, o, at, qty, price);
    var booked := BookFill(c.history, o, at, qty, price);
    if booked.Ok? {
      var paid := executed.(history := booked.value);
      AccrueFeesWeight(cfg, paid, o, at, qty, price, c.draws);
      AccrueFeesFails(cfg, paid, o, at, qty, price, c.draws);
    }
  }

  // ---- one fill event ----

  /** A due fill of an open order, given the latest quote: it waits exactly when its limit is not reached; it breaks the
      script for a price beyond the limit, for no usable price, for a quantity that is not open, for an uncovered sell,
      or after a batch it owes to is posted; and otherwise trades all of its quantity, and an armed overfill, at the
      scripted price or else at the ask for a buy and the bid for a sell. */
  lemma FillIs(cfg: Config, c: Core, at: int, event: Event, q: Option<Quote>, price: Option<real>, qty: real)
    requires InOrder(c, at) && event.Fill? && event.orderId < |c.orders| && !IsTerminal(c.orders[event.orderId].status)
    requires var series := SeriesOf(c.quotes, c.orders[event.orderId].instrument);
             Rising(series) && IsLatest(series, at, q)
    requires TradesAt(c.orders[event.orderId], event, q, price) && Takes(c.orders[event.orderId], event, qty)
    ensures var o, r := c.orders[event.orderId], Apply(cfg, c, at, event);
            if !LimitReached(o, q) then r.Ok? && Waits(c, r.value, o, at, event)
            else if price.Some? && BeyondLimit(o, price.value) then r == Err(WorseThanLimit)
            else if price.None? || price.value <= 0.0 then r == Err(NoUsableQuote)
            else if qty <= 0.0 || qty > o.qty - o.filledQty then r == Err(FillExceedsRemaining)
            else if Uncovered(c, o, at, qty + o.overfill) then r == Err(SellExceedsPosition)
            else if r.Err? then r == Err(FillAfterBatchPosted)
            else Trades(cfg, c, r.value, event.orderId, at, qty + o.overfill, price.value)
  {
    hide Execute, PlanFill, Waits, Trades, Uncovered, IsLatest, TradesAt, Takes, LimitReached, BeyondLimit;
    var o := c.orders[event.orderId];
    PlanIs(c.quotes, o, at, event, q, price, qty);
    if !LimitReached(o, q) {
      UnreachedWaits(cfg, c, at, event, q);
    } else if price.Some? {
      ExecuteTrades(cfg, c, event.orderId, at, qty, price.value);
    }
  }

  // ---- the other order events ----

  /** The order is over for good. */
  predicate Over(o: Order) {
    o.status == Filled || o.status == Canceled || o.status == Expired || o.status == Rejected
  }

  /** The order with a new status from this instant on; only a cancel and an expiry leave their own stamp. */
  predicate Restamped(o: Order, n: Order, status: Status, at: int) {
    && n == o.(status := status, updatedAt := at, canceledAt := n.canceledAt, expiredAt := n.expiredAt)
    && n.canceledAt == (if status == Canceled then Some(at) else o.canceledAt)
    && n.expiredAt == (if status == Expired then Some(at) else o.expiredAt)
  }

  /** A start makes the order new and submitted, a scripted end and an expiry give it that end's status, and an event of
      an order that is over lapses; nothing else moves. An event of an unknown order is a fault. */
  lemma OrderEventIs(cfg: Config, c: Core, at: int, event: Event)
    requires c.history != [] && (event.Start? || event.Terminal? || event.Expire? || event.Fill?)
    ensures var r, id := Apply(cfg, c, at, event), event.orderId;
            if id >= |c.orders| then r == Err(UnknownOrder)
            else if Over(c.orders[id]) then r == Ok(c)
            else !event.Fill? ==>
              && r.Ok? && r.value == c.(orders := r.value.orders) && |r.value.orders| == |c.orders|
              && (forall i :: 0 <= i < |c.orders| && i != id ==> r.value.orders[i] == c.orders[i])
              && (event.Start? ==>
                    r.value.orders[id] == c.orders[id].(status := New, submittedAt := Some(at), updatedAt := at))
              && (event.Terminal? ==> Restamped(c.orders[id], r.value.orders[id], event.status, at))
              && (event.Expire? ==> Restamped(c.orders[id], r.value.orders[id], cfg.dayEnd, at))
  {
  }

  // ---- what a fill owes ----

  /** What a fill owes to a batch of its trade date. Every share traded owes CAT; what is sold owes REG on its
      proceeds and TAF by the unit, for shares at most so much a trade, and for contracts ORF too. */
  ghost predicate Owes(rates: Rates, date: int, assetClass: AssetClass, side: Side, multiplier: real, qty: real,
                       price: real, x: Charge) {
    && assetClass != Crypto && x.key.tradeDate == date && x.key.option == (assetClass == OptionContract)
    && match x.key.kind
       case Cat => assetClass == Equity && x.amount == qty * rates.catPerShare && x.proceeds == 0.0 && x.units == qty
       case Reg =>
         && side == Sell && x.units == 0.0
         && (assetClass == OptionContract ==>
               x.amount == qty * price * multiplier * rates.regPerDollar && x.proceeds == qty * price * multiplier)
         && (assetClass == Equity ==> x.amount == qty * price * rates.regPerDollar && x.proceeds == qty * price)
       case Taf =>
         && side == Sell && x.proceeds == 0.0 && x.units == qty
         && (assetClass == OptionContract ==> x.amount == qty * rates.optTafPerContract)
         && (assetClass == Equity ==>
               && x.amount <= qty * rates.tafPerShare && x.amount <= rates.tafMaxPerTrade
               && (x.amount == qty * rates.tafPerShare || x.amount == rates.tafMaxPerTrade))
       case Orf =>
         && side == Sell && assetClass == OptionContract && x.amount == qty * rates.orfPerContract
         && x.proceeds == 0.0 && x.units == qty
  }

  predicate OneEach(charges: seq<Charge>) {
    forall i, j :: 0 <= i < j < |charges| ==> charges[i].key != charges[j].key
  }

  /** A fill is charged exactly what it owes, each batch once. */
  lemma ChargesAre(rates: Rates, date: int, assetClass: AssetClass, side: Side, multiplier: real, qty: real,
                   price: real, x: Charge)
    ensures var charges := ChargesFor(rates, date, assetClass, side, multiplier, qty, price);
            && OneEach(charges)
            && (x in charges <==> Owes(rates, date, assetClass, side, multiplier, qty, price, x))
  {
    var charges := ChargesFor(rates, date, assetClass, side, multiplier, qty, price);
    match assetClass {
      case Crypto =>
      case Equity =>
        if side == Sell { assert charges[0] in charges && charges[1] in charges && charges[2] in charges; }
        else { assert charges[0] in charges; }
      case OptionContract =>
        if side == Sell { assert charges[0] in charges && charges[1] in charges && charges[2] in charges; }
    }
  }

  /** When the batch posts: its product's posting time on its trade date. */
  predicate PostsThen(posting: Posting, key: BatchKey, at: int) {
    (key.option ==> at == posting.optionBatch(key.tradeDate))
      && (!key.option ==> at == posting.equityBatch(key.tradeDate))
  }

  /** A batch before its first charge. */
  predicate Untouched(b: Batch) {
    b.amount == 0.0 && b.proceeds == 0.0 && b.units == 0.0 && b.trades == 0 && !b.posted
  }

  predicate ChargeAdded(b: Batch, n: Batch, x: Charge) {
    n == b.(amount := b.amount + x.amount, proceeds := b.proceeds + x.proceeds, units := b.units + x.units,
            trades := b.trades + 1)
  }

  /** A batch that may still take a charge at the instant: not posted, and not due to post yet. */
  predicate TakesCharges(b: Batch, at: int) { !b.posted && at < b.createdAt }

  /** The charge was added to its batch, as it was or just started. */
  ghost predicate ChargedTo(posting: Posting, before: map<BatchKey, Batch>, after: map<BatchKey, Batch>, at: int,
                            x: Charge) {
    x.key in after && exists b :: Opened(posting, before, x.key, b) && TakesCharges(b, at)
                                  && ChargeAdded(b, after[x.key], x)
  }

  /** The batches after the charges: each charge added to its batch, new ones started, and no other batch touched. */
  ghost predicate Batched(posting: Posting, before: map<BatchKey, Batch>, after: map<BatchKey, Batch>, at: int,
                          charges: seq<Charge>) {
    && (forall key :: key in after && (forall x :: x in charges ==> x.key != key) ==>
          key in before && after[key] == before[key])
    && (forall key :: key in before ==> key in after)
    && (forall x :: x in charges ==> ChargedTo(posting, before, after, at, x))
  }

  /** The batch as the charge finds it, started where there was none. */
  ghost predicate Opened(posting: Posting, batches: map<BatchKey, Batch>, key: BatchKey, b: Batch) {
    if key in batches then b == batches[key] else Untouched(b) && PostsThen(posting, key, b.createdAt)
  }

  /** The queue after the charges: every batch that was started has its posting queued, and nothing else is new. */
  ghost predicate PostingsQueued(posting: Posting, before: seq<Timed>, after: seq<Timed>,
                                 batches: map<BatchKey, Batch>, charges: seq<Charge>) {
    forall t :: t in after <==>
      || t in before
      || exists x :: x in charges && x.key !in batches && t.event == PostBatch(x.key)
                     && PostsThen(posting, x.key, t.at)
  }

  lemma AccrueIs(cfg: Config, c: Core, at: int, x: Charge)
    requires cfg.fees.Some?
    ensures var r := Accrue(c, at, x.key, PostsAt(cfg, x.key), x.amount, x.proceeds, x.units);
            var posting := cfg.fees.value.posting;
            && (r.Ok? <==> exists b :: Opened(posting, c.batches, x.key, b) && TakesCharges(b, at))
            && (r.Ok? ==>
                  && r.value == c.(queue := r.value.queue, batches := r.value.batches)
                  && x.key in r.value.batches && r.value.batches == c.batches[x.key := r.value.batches[x.key]]
                  && (exists b :: Opened(posting, c.batches, x.key, b) && TakesCharges(b, at)
                                  && ChargeAdded(b, r.value.batches[x.key], x))
                  && (forall t :: t in r.value.queue
                       <==> t in c.queue || (x.key !in c.batches && t.event == PostBatch(x.key)
                                             && PostsThen(posting, x.key, t.at))))
  {
    var postsAt := PostsAt(cfg, x.key);
    InsertMembers(c.queue, postsAt, PostBatch(x.key));
    var b := if x.key in c.batches then c.batches[x.key] else Batch(postsAt, 0.0, 0.0, 0.0, 0, false);
    assert Opened(cfg.fees.value.posting, c.batches, x.key, b);
    assert forall a :: Opened(cfg.fees.value.posting, c.batches, x.key, a) ==> a == b;
  }

  /** Some batch would take the charge. */
  ghost predicate Chargeable(posting: Posting, batches: map<BatchKey, Batch>, at: int, key: BatchKey) {
    exists b :: Opened(posting, batches, key, b) && TakesCharges(b, at)
  }

  lemma OtherBatchOpens(posting: Posting, before: map<BatchKey, Batch>, after: map<BatchKey, Batch>, key: BatchKey,
                        other: BatchKey, b: Batch)
    requires key in after && after == before[key := after[key]] && other != key
    ensures Opened(posting, after, other, b) <==> Opened(posting, before, other, b)
  {
  }

  lemma StillCharged(posting: Posting, a: map<BatchKey, Batch>, b: map<BatchKey, Batch>, c: map<BatchKey, Batch>,
                     at: int, x: Charge, y: Charge)
    requires x.key in b && b == a[x.key := b[x.key]]
    requires || (y.key == x.key && y.key in c && c[y.key] == b[y.key] && ChargedTo(posting, a, b, at, y))
             || (y.key != x.key && ChargedTo(posting, b, c, at, y))
    ensures ChargedTo(posting, a, c, at, y)
  {
    hide Opened, TakesCharges, ChargeAdded;
    if y.key != x.key {
      var o :| Opened(posting, b, y.key, o) && TakesCharges(o, at) && ChargeAdded(o, c[y.key], y);
      OtherBatchOpens(posting, a, b, x.key, y.key, o);
    }
  }

  lemma NothingBatched(posting: Posting, batches: map<BatchKey, Batch>, at: int)
    ensures Batched(posting, batches, batches, at, [])
  {
  }

  lemma {:induction false} AccrueAllIs(cfg: Config, c: Core, at: int, charges: seq<Charge>)
    requires cfg.fees.Some? && OneEach(charges)
    ensures var r, posting := AccrueAll(cfg, c, at, charges), cfg.fees.value.posting;
            && (r.Ok? <==> forall x :: x in charges ==> Chargeable(posting, c.batches, at, x.key))
            && (r.Ok? ==> && r.value == c.(queue := r.value.queue, batches := r.value.batches)
                          && Batched(posting, c.batches, r.value.batches, at, charges)
                          && PostingsQueued(posting, c.queue, r.value.queue, c.batches, charges))
    decreases |charges|
  {
    hide Accrue, Opened, TakesCharges, ChargeAdded, PostsThen, Batched;
    if charges == [] {
      NothingBatched(cfg.fees.value.posting, c.batches, at);
    } else {
      var posting, x, rest := cfg.fees.value.posting, charges[0], charges[1..];
      assert charges == [x] + rest && forall y :: y in charges <==> y == x || y in rest;
      assert forall y :: y in rest ==> y.key != x.key;
      AccrueIs(cfg, c, at, x);
      var one := Accrue(c, at, x.key, PostsAt(cfg, x.key), x.amount, x.proceeds, x.units);
      if one.Ok? {
        AccrueAllIs(cfg, one.value, at, rest);
        forall y | y in rest
          ensures Chargeable(posting, one.value.batches, at, y.key) <==> Chargeable(posting, c.batches, at, y.key)
        {
          SameChargeable(posting, c.batches, one.value.batches, x.key, y.key, at);
        }
        var r := AccrueAll(cfg, one.value, at, rest);
        if r.Ok? {
          BatchedOneMore(posting, c.batches, one.value.batches, r.value.batches, at, x, rest);
          QueuedOneMore(posting, c.queue, one.value.queue, r.value.queue, c.batches, one.value.batches, x, rest);
          assert [x] + rest == charges;
        }
      }
    }
  }

  lemma SameChargeable(posting: Posting, before: map<BatchKey, Batch>, after: map<BatchKey, Batch>, key: BatchKey,
                       other: BatchKey, at: int)
    requires key in after && after == before[key := after[key]] && other != key
    ensures Chargeable(posting, after, at, other) <==> Chargeable(posting, before, at, other)
  {
    forall b ensures Opened(posting, after, other, b) <==> Opened(posting, before, other, b) {
      OtherBatchOpens(posting, before, after, key, other, b);
    }
  }

  lemma BatchedOneMore(posting: Posting, a: map<BatchKey, Batch>, b: map<BatchKey, Batch>, c: map<BatchKey, Batch>,
                       at: int, x: Charge, rest: seq<Charge>)
    requires x.key in b && b == a[x.key := b[x.key]] && ChargedTo(posting, a, b, at, x)
    requires Batched(posting, b, c, at, rest) && forall y :: y in rest ==> y.key != x.key
    ensures Batched(posting, a, c, at, [x] + rest)
  {
    hide ChargedTo;
    assert x.key in c && c[x.key] == b[x.key];
    forall y | y in [x] + rest ensures ChargedTo(posting, a, c, at, y) {
      StillCharged(posting, a, b, c, at, x, y);
    }
    forall key | key in c && (forall y :: y in [x] + rest ==> y.key != key) ensures key in a && c[key] == a[key] {
      assert x in [x] + rest && forall y :: y in rest ==> y in [x] + rest;
    }
  }

  lemma QueuedOneMore(posting: Posting, a: seq<Timed>, b: seq<Timed>, c: seq<Timed>, before: map<BatchKey, Batch>,
                      after: map<BatchKey, Batch>, x: Charge, rest: seq<Charge>)
    requires x.key in after && after == before[x.key := after[x.key]] && forall y :: y in rest ==> y.key != x.key
    requires forall t :: t in b <==> t in a || (x.key !in before && t.event == PostBatch(x.key)
                                                && PostsThen(posting, x.key, t.at))
    requires PostingsQueued(posting, b, c, after, rest)
    ensures PostingsQueued(posting, a, c, before, [x] + rest)
  {
    hide PostsThen;
    assert forall y :: y in [x] + rest <==> y == x || y in rest;
    assert forall y :: y in rest ==> (y.key in after <==> y.key in before);
  }

  // ---- the fee a fill posts on its own ----

  /** What a fill's own fee is reckoned on: contracts at the clearing rate, coin bought or its value sold at the crypto
      rate. */
  predicate FeeBase(rates: Rates, o: Order, qty: real, price: real, base: real) {
    match o.instrument.assetClass
    case Equity => base == 0.0
    case OptionContract => base == qty * rates.occPerContract
    case Crypto => base == if o.side == Buy then qty * rates.cryptoRate else qty * price * rates.cryptoRate
  }

  /** A contract traded owes the clearing fee; coin bought owes its fee in the coin, coin sold in cash; each as its own
      row after its own delay, cash rounded, and nothing where it comes to nothing. */
  predicate OwesRow(fees: Fees, o: Order, at: int, suffix: nat, base: real, t: Timed) {
    var rounded, posting := fees.rates.cents(base), fees.posting;
    match o.instrument.assetClass
    case Equity => false
    case OptionContract =>
      rounded > 0.0 && t == Timed(at + posting.occDelay, PostRow(FeeRow(Some(suffix), -rounded, None)))
    case Crypto =>
      && (o.side == Buy ==>
            base > 0.0
            && t == Timed(at + posting.cfeeAssetDelay, PostRow(FeeRow(None, 0.0, Some((o.instrument.symbol, -base))))))
      && (o.side == Sell ==>
            rounded > 0.0 && t == Timed(at + posting.cfeeUsdDelay, PostRow(FeeRow(None, -rounded, None))))
  }

  lemma OwnFeeIs(cfg: Config, o: Order, at: int, qty: real, price: real, suffix: nat, base: real, t: Timed)
    requires cfg.fees.Some? && FeeBase(cfg.fees.value.rates, o, qty, price, base)
    ensures OwnFee(cfg, o, at, qty, price, suffix) == Some(t) <==> OwesRow(cfg.fees.value, o, at, suffix, base, t)
  {
    hide OccFee, CoinFee, CoinSaleFee;
    match o.instrument.assetClass {
      case Equity =>
      case OptionContract => ClearingSpelled(cfg.fees.value.rates, qty, base);
      case Crypto =>
        if o.side == Buy { CoinSpelled(cfg.fees.value.rates, qty, base); }
        else { SaleSpelled(cfg.fees.value.rates, qty, price, base); }
    }
  }

  lemma ClearingSpelled(rates: Rates, qty: real, base: real)
    requires base == qty * rates.occPerContract
    ensures OccFee(rates, qty) == rates.cents(base)
  {
    assert Times(qty, rates.occPerContract) == base;
  }

  lemma CoinSpelled(rates: Rates, qty: real, base: real)
    requires base == qty * rates.cryptoRate
    ensures CoinFee(rates, qty) == base
  {
  }

  lemma SaleSpelled(rates: Rates, qty: real, price: real, base: real)
    requires base == qty * price * rates.cryptoRate
    ensures CoinSaleFee(rates, qty, price) == rates.cents(base)
  {
    assert Times(Times(qty, price), rates.cryptoRate) == base;
  }

  /** After a fill every batch it owes to holds its charge, and every posting and row it causes is queued; it fails
      exactly when some batch it owes to is posted or due. Without a fee scenario it owes nothing. */
  lemma FillOwes(cfg: Config, c: Core, o: Order, at: int, qty: real, price: real, suffix: nat, base: real)
    requires cfg.fees.Some? ==> FeeBase(cfg.fees.value.rates, o, qty, price, base)
    ensures var r := AccrueFees(cfg, c, o, at, qty, price, suffix);
            && (cfg.fees.None? ==> r == Ok(c))
            && (cfg.fees.Some? ==>
                  var posting := cfg.fees.value.posting;
                  var charges := Charges(cfg, o, at, qty, price);
                  && OneEach(charges)
                  && (forall x ::
                        x in charges <==> Owes(cfg.fees.value.rates, cfg.tradeDate(at), o.instrument.assetClass, o.side,
                                               o.multiplier, qty, price, x))
                  && (r.Ok? <==> forall x :: x in charges ==> Chargeable(posting, c.batches, at, x.key))
                  && (r.Ok? ==>
                        && r.value == c.(queue := r.value.queue, batches := r.value.batches)
                        && Batched(posting, c.batches, r.value.batches, at, charges)
                        && exists queued ::
                             && (forall t :: t in queued
                                   <==> t in c.queue || OwesRow(cfg.fees.value, o, at, suffix, base, t))
                             && PostingsQueued(posting, queued, r.value.queue, c.batches, charges)))
  {
    hide OwnFee, Owes, Batched, PostingsQueued, OwesRow, FeeBase, Chargeable, ChargesFor;
    if cfg.fees.Some? {
      var own := OwnFee(cfg, o, at, qty, price, suffix);
      var queued := if own.Some? then Push(c, own.value.at, own.value.event) else c;
      forall t ensures own == Some(t) <==> OwesRow(cfg.fees.value, o, at, suffix, base, t) {
        OwnFeeIs(cfg, o, at, qty, price, suffix, base, t);
      }
      if own.Some? { InsertMembers(c.queue, own.value.at, own.value.event); }
      assert forall t :: t in queued.queue <==> t in c.queue || own == Some(t);
      var charges := Charges(cfg, o, at, qty, price);
      forall x ensures OneEach(charges)
                    && (x in charges
                        <==> Owes(cfg.fees.value.rates, cfg.tradeDate(at), o.instrument.assetClass, o.side,
                                  o.multiplier, qty, price, x))
      {
        ChargesAre(cfg.fees.value.rates, cfg.tradeDate(at), o.instrument.assetClass, o.side, o.multiplier, qty, price,
                   x);
      }
      assert OneEach(charges) by {
        ChargesAre(cfg.fees.value.rates, cfg.tradeDate(at), o.instrument.assetClass, o.side, o.multiplier, qty, price,
                   Charge(BatchKey(Cat, false, 0), 0.0, 0.0, 0.0));
      }
      AccrueAllIs(cfg, queued, at, charges);
    }
  }

  // ---- a fee that posts ----

  /** A fee row takes its cash and its coin. */
  ghost predicate FeeMoved(s: State, n: State, cashDelta: real, coin: Option<(string, real)>) {
    && n.cash == s.cash + cashDelta
    && (coin.None? ==> n.holdings == s.holdings)
    && (coin.Some? ==>
          var symbol := coin.value.0;
          && OnlyMoves(s.holdings, n.holdings, symbol) && symbol in s.holdings
          && var rest := s.holdings[symbol].qty + coin.value.1;
             if rest == 0.0 then symbol !in n.holdings
             else symbol in n.holdings && n.holdings[symbol] == s.holdings[symbol].(qty := rest))
  }

  /** More coin than is held. */
  predicate FeeUncovered(holdings: map<string, Holding>, coin: Option<(string, real)>) {
    coin.Some? && (coin.value.0 !in holdings || holdings[coin.value.0].qty < -coin.value.1)
  }

  lemma BookFeeIs(history: seq<State>, at: int, cashDelta: real, coin: Option<(string, real)>)
    requires history != [] && HistoryRising(history) && LastAt(history) <= at
    ensures var r, s := BookFee(history, at, cashDelta, coin), StateAt(history, at);
            && (r.Err? <==> FeeUncovered(s.holdings, coin))
            && (r.Err? ==> r.error == FeeExceedsPosition)
            && (r.Ok? ==> exists n :: InForceFrom(history, r.value, at, n) && FeeMoved(s, n, cashDelta, coin))
  {
    hide StateAt, InForceFrom, Record;
    var s := StateAt(history, at);
    if coin.None? {
      RecordInForce(history, State(at, s.cash + cashDelta, s.holdings));
    } else if !FeeUncovered(s.holdings, coin) {
      var symbol, rest := coin.value.0, s.holdings[coin.value.0].qty + coin.value.1;
      var holdings := if rest == 0.0 then s.holdings - {symbol}
        else s.holdings[symbol := s.holdings[symbol].(qty := rest)];
      RecordInForce(history, State(at, s.cash + cashDelta, holdings));
      assert FeeMoved(s, State(at, s.cash + cashDelta, holdings), cashDelta, coin);
    }
  }

  /** One more activity, visible at once, and its cash and coin. */
  ghost predicate FeePosted(c: Core, d: Core, at: int, row: Row, cashDelta: real, coin: Option<(string, real)>)
    requires c.history != []
  {
    && d == c.(activities := c.activities + [Activity(c.draws, at, at, row)], draws := c.draws + 1,
       history := d.history)
    && exists n :: InForceFrom(c.history, d.history, at, n) && FeeMoved(StateAt(c.history, at), n, cashDelta, coin)
  }

  /** A fee that posts: a row moves its cash and coin, or breaks the script for more coin than is held; a batch is
      posted, and takes its rounded sum from cash unless that comes to nothing. */
  lemma FeeEventIs(cfg: Config, c: Core, at: int, event: Event)
    requires InOrder(c, at) && (event.PostBatch? || event.PostRow?)
    ensures var r := Apply(cfg, c, at, event);
            if cfg.fees.None? || (event.PostBatch? && event.key !in c.batches) then r == Err(NoFeeRates)
            else if event.PostRow? then
              var row := event.row;
              if FeeUncovered(StateAt(c.history, at).holdings, row.coinDelta) then r == Err(FeeExceedsPosition)
              else r.Ok? && FeePosted(c, r.value, at, SingleFeeRow(row), row.cashDelta, row.coinDelta)
            else
              var b := c.batches[event.key];
              var amount, posted := cfg.fees.value.rates.cents(b.amount), c.batches[event.key := b.(posted := true)];
              r.Ok? && if amount <= 0.0 then r.value == c.(batches := posted)
                       else FeePosted(c.(batches := posted), r.value, at, BatchRow(event.key, -amount), -amount, None)
  {
    hide StateAt, InForceFrom, BookFee, FeeMoved, FeeUncovered;
    if event.PostRow? {
      BookFeeIs(c.history, at, event.row.cashDelta, event.row.coinDelta);
    } else if cfg.fees.Some? && event.key in c.batches {
      var amount := cfg.fees.value.rates.cents(c.batches[event.key].amount);
      BookFeeIs(c.history, at, -amount, None);
      assert !FeeUncovered(StateAt(c.history, at).holdings, None) by { NoCoinNoShortage(StateAt(c.history, at)); }
    }
  }

  lemma NoCoinNoShortage(s: State)
    ensures !FeeUncovered(s.holdings, None)
  {
  }
}
