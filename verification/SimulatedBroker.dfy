/** The simulator itself: one object whose fields its methods update, each proved to do what the timeline functions
    say. The clock's instant is a parameter. A raised error is a returned `Some`; after one, the object's fields are
    whatever the interrupted step left, and the scenario is over. */
module SimulatedBroker {
  import opened Common
  import opened TradingSession
  import opened SimulatorModel
  import opened SimulatorCommands
  import opened SimulatorOrders

  /** A heap entry: the instant, the sequence number that breaks ties, the event. */
  datatype Entry = Entry(at: int, number: nat, event: Event)

  predicate Earlier(a: Entry, b: Entry) {
    a.at < b.at || (a.at == b.at && a.number < b.number)
  }

  predicate Ascending(order: seq<Entry>) {
    forall i, j :: 0 <= i < j < |order| ==> Earlier(order[i], order[j])
  }

  function Timeline(order: seq<Entry>): seq<Timed> {
    seq(|order|, i requires 0 <= i < |order| => Timed(order[i].at, order[i].event))
  }

  /** Where an entry with the largest number so far belongs: behind everything not later. */
  function Slotted(order: seq<Entry>, e: Entry): seq<Entry> {
    if order == [] || e.at < order[0].at then [e] + order else [order[0]] + Slotted(order[1..], e)
  }

  lemma {:induction false} SlottedMembers(order: seq<Entry>, e: Entry)
    ensures multiset(Slotted(order, e)) == multiset(order) + multiset{e}
    ensures forall x :: x in Slotted(order, e) <==> x in order || x == e
  {
    if order != [] && e.at >= order[0].at {
      SlottedMembers(order[1..], e);
      assert order == [order[0]] + order[1..];
    }
  }

  /** The newest number keeps the entries in strict order, and forgetting the numbers is the stable insertion. */
  lemma {:induction false} SlottedInOrder(order: seq<Entry>, e: Entry)
    requires Ascending(order) && forall x :: x in order ==> x.number < e.number
    ensures Ascending(Slotted(order, e))
    ensures Timeline(Slotted(order, e)) == Insert(Timeline(order), e.at, e.event)
  {
    if order == [] {
    } else if e.at < order[0].at {
      assert forall x :: x in order ==> Earlier(e, x);
      assert Timeline([e] + order) == [Timed(e.at, e.event)] + Timeline(order);
    } else {
      SlottedInOrder(order[1..], e);
      SlottedMembers(order[1..], e);
      var rest := Slotted(order[1..], e);
      assert forall x :: x in rest ==> Earlier(order[0], x);
      assert Timeline(order)[1..] == Timeline(order[1..]);
      assert Timeline([order[0]] + rest) == [Timeline(order)[0]] + Timeline(rest);
    }
  }

  lemma StillRising(quotes: map<Instrument, seq<Quote>>, k: Instrument, quote: Quote)
    requires QuotesRising(quotes)
    requires var series := SeriesOf(quotes, k); series != [] ==> quote.at > series[|series| - 1].at
    ensures QuotesRising(quotes[k := SeriesOf(quotes, k) + [quote]])
  {
    var series := SeriesOf(quotes, k);
    assert Rising(series + [quote]);
  }


  class SimulatedBroker {
    const cfg: Config

    // the event heap: entries in any order, and the last number given out
    var events: seq<Entry>
    var counter: nat
    ghost var order: seq<Entry>

    var history: seq<State>
    var quotes: map<Instrument, seq<Quote>>
    var orders: seq<Order>
    var parked: map<Instrument, seq<Waiting>>
    var activities: seq<Activity>
    var batches: map<BatchKey, Batch>
    var draws: nat
    var clients: map<ClientId, nat>
    var scripts: map<string, Script>
    var overfillPending: real
    var materializedAt: Option<int>
    var checks: seq<Check>

    /** `order` is the heap's content in the order it will be popped. */
    ghost predicate Valid()
      reads this
    {
      && ValidConfig(cfg)
      && history != []
      && |checks| == |orders|
      && QuotesRising(quotes)
      && HeapOk()
    }

    ghost predicate HeapOk()
      reads `events, `order, `counter
    {
      && multiset(events) == multiset(order)
      && Ascending(order)
      && (forall e :: e in order ==> e.number <= counter)
    }

    ghost function Now(): Core
      reads this
    {
      Core(history, quotes, Timeline(order), orders, parked, activities, batches, draws)
    }

    ghost function Whole(): World
      reads this
    {
      World(Now(), clients, scripts, overfillPending, materializedAt, checks)
    }

    /** The method agrees with the function: same error, or the function's timeline. */
    ghost predicate Did(err: Option<ScriptError>, outcome: Outcome)
      reads this
    {
      match err case Some(e) => outcome == Err(e) case None => outcome == Ok(Now())
    }

    constructor (cfg: Config, createdAt: int, cash: real)
      requires ValidConfig(cfg)
      ensures this.cfg == cfg && Valid() && Whole() == Fresh(createdAt, cash)
    {
      this.cfg := cfg;
      events, counter, order := [], 0, [];
      history := [State(createdAt, cash, map[])];
      quotes, orders, parked, activities, batches, draws := map[], [], map[], [], map[], 0;
      clients, scripts, overfillPending, materializedAt, checks := map[], map[], 0.0, None, [];
    }

    // ---- the heap ----

    method Push(at: int, event: Event)
      requires Valid()
      modifies `events, `counter, `order
      ensures Valid() && Now() == SimulatorModel.Push(old(Now()), at, event)
    {
      counter := counter + 1;
      var e := Entry(at, counter, event);
      SlottedMembers(order, e);
      SlottedInOrder(order, e);
      events := events + [e];
      order := Slotted(order, e);
    }

    /** The smallest (instant, number) pair leaves the heap; it is the head of the timeline. */
    method Pop() returns (e: Entry)
      requires Valid() && events != []
      modifies `events, `order
      ensures Valid() && old(Now()).queue != [] && Now() == Popped(old(Now()))
      ensures Timed(e.at, e.event) == old(Now()).queue[0]
    {
      var least := LeastIndex();
      e := events[least];
      HeadIsLeast(events, order, least);
      LeastLeaves(events, order, least);
      events := events[..least] + events[least + 1..];
      order := order[1..];
      assert Now().queue == old(Now()).queue[1..];
    }

    /** Peeks: is the smallest entry due? */
    method Due(now: int) returns (due: bool)
      requires Valid()
      ensures due <==> Now().queue != [] && Now().queue[0].at <= now
      ensures due ==> events != []
    {
      assert |events| == |multiset(events)| && |order| == |multiset(order)|;
      if events == [] { return false; }
      var least := LeastIndex();
      HeadIsLeast(events, order, least);
      due := events[least].at <= now;
    }

    method LeastIndex() returns (least: nat)
      requires events != []
      ensures least < |events| && forall i :: 0 <= i < |events| ==> !Earlier(events[i], events[least])
    {
      least := 0;
      for i := 1 to |events|
        invariant least < |events| && forall j :: 0 <= j < i ==> !Earlier(events[j], events[least])
      {
        if Earlier(events[i], events[least]) { least := i; }
      }
    }

    // ---- reads ----

    /** The latest scripted quote at or before the instant, by bisection. */
    method QuoteAt(k: Instrument, at: int) returns (q: Option<Quote>)
      requires Valid()
      ensures IsLatest(SeriesOf(quotes, k), at, q)
      ensures q == SimulatorModel.QuoteAt(SeriesOf(quotes, k), at)
    {
      hide HeapOk, Timeline;
      var series := if k in quotes then quotes[k] else [];
      assert Rising(series);
      var low, high := 0, |series|;
      while low < high
        invariant 0 <= low <= high <= |series|
        invariant forall i :: 0 <= i < low ==> series[i].at <= at
        invariant forall i :: high <= i < |series| ==> series[i].at > at
      {
        var middle := (low + high) / 2;
        if at < series[middle].at { high := middle; } else { low := middle + 1; }
      }
      q := if low == 0 then None else Some(series[low - 1]);
      assert IsLatest(series, at, q);
      QuoteAtIsTheLatest(series, at);
    }

    method Record(state: State)
      requires Valid()
      modifies `history
      ensures Valid() && history == SimulatorModel.Record(old(history), state)
    {
      hide HeapOk, Timeline, QuotesRising;
      if state.at == history[|history| - 1].at {
        history := history[..|history| - 1] + [state];
      } else {
        history := history + [state];
      }
    }

    function StateAt(at: int): State
      requires history != []
      reads this
    {
      SimulatorModel.StateAt(history, at)
    }

    // ---- cash, holdings and fees ----

    method BookFill(o: Order, at: int, qty: real, price: real) returns (err: Option<ScriptError>)
      requires Valid()
      modifies `history
      ensures Valid()
      ensures match err
              case Some(e) => SimulatorModel.BookFill(old(history), o, at, qty, price) == Err(e)
              case None => SimulatorModel.BookFill(old(history), o, at, qty, price) == Ok(history)
    {
      hide HeapOk, Timeline, QuotesRising;
      var state := StateAt(at);
      var holdings := state.holdings;
      var symbol := o.instrument.symbol;
      var signed := Signed(o.side, qty);
      var cash := state.cash - Cost(o, qty, price);
      var before := Qty(holdings, symbol);
      if o.side == Sell && before < qty && !(o.oversell || o.overfilled != 0.0) {
        return Some(SellExceedsPosition);
      }
      var after := before + signed;
      if after == 0.0 {
        holdings := holdings - {symbol};
      } else if symbol !in holdings || (before > 0.0) != (after > 0.0) {
        holdings := holdings[symbol := Holding(o.instrument.assetClass, after, price, o.multiplier)];
      } else if Abs(after) > Abs(before) {
        var average := Blended(before, holdings[symbol].avgEntry, signed, price);
        holdings := holdings[symbol := holdings[symbol].(qty := after, avgEntry := average)];
      } else {
        holdings := holdings[symbol := holdings[symbol].(qty := after)];
      }
      assert holdings == HoldingsAfterFill(state.holdings, o, qty, price);
      Record(State(at, cash, holdings));
      err := None;
    }

    method BookFee(at: int, cashDelta: real, coinDelta: Option<(string, real)>) returns (err: Option<ScriptError>)
      requires Valid()
      modifies `history
      ensures Valid()
      ensures match err
              case Some(e) => SimulatorModel.BookFee(old(history), at, cashDelta, coinDelta) == Err(e)
              case None => SimulatorModel.BookFee(old(history), at, cashDelta, coinDelta) == Ok(history)
    {
      hide HeapOk, Timeline, QuotesRising;
      var state := StateAt(at);
      var holdings := state.holdings;
      if coinDelta.Some? {
        var (symbol, delta) := coinDelta.value;
        if symbol !in holdings || holdings[symbol].qty + delta < 0.0 {
          return Some(FeeExceedsPosition);
        }
        if holdings[symbol].qty + delta == 0.0 {
          holdings := holdings - {symbol};
        } else {
          holdings := holdings[symbol := holdings[symbol].(qty := holdings[symbol].qty + delta)];
        }
      }
      Record(State(at, state.cash + cashDelta, holdings));
      err := None;
    }

    /** Adds a fill to its batch; the first fill of a batch creates it and queues its posting. */
    method Batch(at: int, x: Charge) returns (err: Option<ScriptError>)
      requires Valid() && cfg.fees.Some?
      modifies `events, `counter, `order, `batches
      ensures Valid() && Did(err, Accrue(old(Now()), at, x.key, PostsAt(cfg, x.key), x.amount, x.proceeds, x.units))
    {
      hide HeapOk, Timeline, QuotesRising;
      if x.key !in batches {
        var postsAt := PostsAt(cfg, x.key);
        batches := batches[x.key := SimulatorModel.Batch(postsAt, 0.0, 0.0, 0.0, 0, false)];
        Push(postsAt, PostBatch(x.key));
      }
      var b := batches[x.key];
      if b.posted || at >= b.createdAt {
        return Some(FillAfterBatchPosted);
      }
      batches := batches[x.key := b.(amount := b.amount + x.amount, proceeds := b.proceeds + x.proceeds,
                                     units := b.units + x.units, trades := b.trades + 1)];
      err := None;
    }

    method EquityFees(o: Order, at: int, qty: real, price: real) returns (err: Option<ScriptError>)
      requires Valid() && cfg.fees.Some? && o.instrument.assetClass == Equity
      modifies `events, `counter, `order, `batches
      ensures Valid() && Did(err, AccrueAll(cfg, old(Now()), at, Charges(cfg, o, at, qty, price)))
    {
      hide HeapOk, Timeline, QuotesRising, Accrue, AccrueAll, EquityCat, EquityReg, EquityTaf;
      var rates, date := cfg.fees.value.rates, cfg.tradeDate(at);
      ghost var charges := Charges(cfg, o, at, qty, price);
      assert o.side == Buy ==> charges[1..] == [];
      assert o.side == Sell ==> charges[1..][1..] == charges[2..] && charges[2..][1..] == [];
      AccrueFirst(cfg, Now(), at, charges);
      err := Batch(at, EquityCat(rates, date, qty));
      if err.Some? || o.side == Buy { return; }
      AccrueFirst(cfg, Now(), at, charges[1..]);
      err := Batch(at, EquityReg(rates, date, qty, price));
      if err.Some? { return; }
      AccrueFirst(cfg, Now(), at, charges[2..]);
      err := Batch(at, EquityTaf(rates, date, qty));
    }

    method OptionSaleFees(o: Order, at: int, qty: real, price: real) returns (err: Option<ScriptError>)
      requires Valid() && cfg.fees.Some? && o.instrument.assetClass == OptionContract && o.side == Sell
      modifies `events, `counter, `order, `batches
      ensures Valid() && Did(err, AccrueAll(cfg, old(Now()), at, Charges(cfg, o, at, qty, price)))
    {
      hide HeapOk, Timeline, QuotesRising, Accrue, AccrueAll, OptionReg, OptionTaf, OptionOrf;
      var rates, date := cfg.fees.value.rates, cfg.tradeDate(at);
      ghost var charges := Charges(cfg, o, at, qty, price);
      assert |charges| == 3 && charges[1..][1..] == charges[2..] && charges[2..][1..] == [];
      AccrueFirst(cfg, Now(), at, charges);
      err := Batch(at, OptionReg(rates, date, qty, price, o.multiplier));
      if err.Some? { return; }
      AccrueFirst(cfg, Now(), at, charges[1..]);
      err := Batch(at, OptionTaf(rates, date, qty));
      if err.Some? { return; }
      AccrueFirst(cfg, Now(), at, charges[2..]);
      err := Batch(at, OptionOrf(rates, date, qty));
    }

    method AccrueFees(o: Order, at: int, qty: real, price: real, suffix: nat) returns (err: Option<ScriptError>)
      requires Valid()
      modifies `events, `counter, `order, `batches
      ensures Valid() && Did(err, SimulatorModel.AccrueFees(cfg, old(Now()), o, at, qty, price, suffix))
    {
      hide HeapOk, Timeline, QuotesRising, Accrue, ChargesFor;
      err := None;
      if cfg.fees.None? { return; }
      assert AccrueAll(cfg, Now(), at, []) == Ok(Now());
      ChargesOnly(cfg, o, at, qty, price);
      ghost var own := OwnFee(cfg, o, at, qty, price, suffix);
      ghost var queued := if own.Some? then SimulatorModel.Push(Now(), own.value.at, own.value.event) else Now();
      var rates, posting := cfg.fees.value.rates, cfg.fees.value.posting;
      if o.instrument.assetClass == Equity {
        err := EquityFees(o, at, qty, price);
      } else if o.instrument.assetClass == OptionContract {
        var amount := OccFee(rates, qty);
        if amount > 0.0 {
          Push(at + posting.occDelay, PostRow(FeeRow(Some(suffix), -amount, None)));
        }
        assert Now() == queued;
        if o.side == Sell { err := OptionSaleFees(o, at, qty, price); }
      } else if o.side == Buy {
        var coin := CoinFee(rates, qty);
        if coin > 0.0 {
          Push(at + posting.cfeeAssetDelay, PostRow(FeeRow(None, 0.0, Some((o.instrument.symbol, -coin)))));
        }
      } else {
        var amount := CoinSaleFee(rates, qty, price);
        if amount > 0.0 {
          Push(at + posting.cfeeUsdDelay, PostRow(FeeRow(None, -amount, None)));
        }
      }
    }

    method PostFee(at: int, event: Event) returns (err: Option<ScriptError>)
      requires Valid() && (event.PostBatch? || event.PostRow?)
      modifies `history, `activities, `batches, `draws
      ensures Valid() && Did(err, ApplyFee(cfg, old(Now()), at, event))
    {
      hide HeapOk, Timeline, QuotesRising, SimulatorModel.BookFee;
      if cfg.fees.None? { return Some(NoFeeRates); }
      if event.PostRow? {
        activities := activities + [Activity(draws, at, at, SingleFeeRow(event.row))];
        draws := draws + 1;
        err := BookFee(at, event.row.cashDelta, event.row.coinDelta);
        return;
      }
      if event.key !in batches { return Some(NoFeeRates); }
      var b := batches[event.key];
      batches := batches[event.key := b.(posted := true)];
      var amount := cfg.fees.value.rates.cents(b.amount);
      if amount <= 0.0 { return None; }
      activities := activities + [Activity(draws, at, at, BatchRow(event.key, -amount))];
      draws := draws + 1;
      err := BookFee(at, -amount, None);
    }

    // ---- one event ----

    method Finish(id: nat, status: Status, at: int)
      requires Valid() && id < |orders|
      modifies `orders
      ensures Valid() && orders == old(orders)[id := Finished(old(orders)[id], status, at)]
    {
      hide HeapOk, Timeline, QuotesRising;
      var o := orders[id].(status := status, updatedAt := at);
      if status == Canceled {
        o := o.(canceledAt := Some(at));
      } else if status == Expired {
        o := o.(expiredAt := Some(at));
      }
      orders := orders[id := o];
    }

    method Rearm(o: Order, at: int, event: Event)
      requires Valid()
      modifies `events, `counter, `order, `parked
      ensures Valid() && Now() == SimulatorModel.Rearm(old(Now()), o.instrument, at, event)
    {
      hide HeapOk, Timeline, QuotesRising;
      var key := o.instrument;
      var later := Later(SeriesOf(quotes, key), at);
      if later != [] {
        Push(later[0].at, event);
      } else {
        var waiting := if key in parked then parked[key] else [];
        parked := parked[key := waiting + [Waiting(at, event)]];
      }
    }

    /** Waits, breaks the script, or fills the order and books what follows from it. */
    method Fill(id: nat, at: int, event: Event) returns (err: Option<ScriptError>)
      requires Valid() && event.Fill? && event.orderId == id && id < |orders|
      modifies `events, `counter, `order, `history, `orders, `parked, `activities, `batches, `draws
      ensures Valid() && Did(err, ApplyFill(cfg, old(Now()), at, event))
    {
      hide HeapOk, Timeline, QuotesRising;
      var o := orders[id];
      var quote := QuoteAt(o.instrument, at);
      var touch := if quote.None? then None else Some(if o.side == Buy then quote.value.ask else quote.value.bid);
      var price := if event.price.Some? then event.price else touch;
      if o.limit.Some? {
        var marketable := touch.Some?
                          && (if o.side == Buy then touch.value <= o.limit.value else touch.value >= o.limit.value);
        if !marketable {
          Rearm(o, at, event);
          return None;
        }
        if price.Some? && (if o.side == Buy then price.value > o.limit.value else price.value < o.limit.value) {
          return Some(WorseThanLimit);
        }
      }
      if price.None? || price.value <= 0.0 { return Some(NoUsableQuote); }
      var qty := if event.qty.Some? then event.qty.value else o.Remaining();
      if qty <= 0.0 || qty > o.Remaining() { return Some(FillExceedsRemaining); }
      err := Take(id, at, qty, price.value);
    }

    method Take(id: nat, at: int, scripted: real, price: real) returns (err: Option<ScriptError>)
      requires Valid() && id < |orders| && 0.0 < scripted <= orders[id].Remaining()
      modifies `events, `counter, `order, `history, `orders, `activities, `batches, `draws
      ensures Valid() && Did(err, Execute(cfg, old(Now()), id, at, scripted, price))
    {
      hide HeapOk, Timeline, QuotesRising, Executed, WithFill, SimulatorModel.BookFill, SimulatorModel.AccrueFees;
      var qty, suffix := ReportFill(id, at, scripted, price);
      err := BookFill(orders[id], at, qty, price);
      if err.Some? { return; }
      err := AccrueFees(orders[id], at, qty, price, suffix);
    }

    /** The order and its activity, before cash and holdings move. */
    method ReportFill(id: nat, at: int, scripted: real, price: real) returns (qty: real, suffix: nat)
      requires Valid() && id < |orders| && 0.0 < scripted <= orders[id].Remaining()
      modifies `orders, `activities, `draws
      ensures Valid() && Now() == Executed(cfg, old(Now()), id, at, scripted, price)
      ensures qty == scripted + old(orders)[id].overfill && suffix == old(draws)
    {
      hide HeapOk, Timeline, QuotesRising, Traded;
      var o := orders[id];
      qty, suffix := scripted, draws;
      if o.overfill != 0.0 {
        qty := qty + o.overfill;
        o := o.(overfilled := o.overfill, overfill := 0.0);
      }
      assert qty == scripted + old(orders)[id].overfill;
      var filled, notional := o.filledQty + qty, Traded(o.notional, qty, price);
      o := o.(filledQty := filled, notional := notional,
              avgPrice := if filled != 0.0 then Some(notional / filled) else None,
              status := if filled >= o.qty then Filled else PartiallyFilled, updatedAt := at);
      if o.status == Filled { o := o.(filledAt := Some(at)); }
      o := o.(fillEvents := o.fillEvents + 1);
      assert o == WithFill(old(orders)[id], at, scripted, price);
      orders := orders[id := o];
      draws := draws + 1;
      activities := activities + [Activity(suffix, at + cfg.activityLag, at,
                                           FillRow(id, o.side, o.instrument.symbol, qty, price, o.filledQty,
                                             o.Remaining(), o.status))];
    }

    method Apply(at: int, event: Event) returns (err: Option<ScriptError>)
      requires Valid()
      modifies `events, `counter, `order, `history, `orders, `parked, `activities, `batches, `draws
      ensures Valid() && Did(err, SimulatorModel.Apply(cfg, old(Now()), at, event))
    {
      hide HeapOk, Timeline, QuotesRising, ApplyFee, ApplyFill;
      if event.PostBatch? || event.PostRow? {
        err := PostFee(at, event);
        return;
      }
      var id := event.orderId;
      if id >= |orders| { return Some(UnknownOrder); }
      err := None;
      if IsTerminal(orders[id].status) { return; }
      match event {
        case Start(_) =>
          orders := orders[id := orders[id].(status := New, submittedAt := Some(at), updatedAt := at)];
        case Terminal(_, status) => Finish(id, status, at);
        case Expire(_) => Finish(id, cfg.dayEnd, at);
        case Fill(_, _, _) => err := Fill(id, at, event);
      }
    }

    // ---- what every read does first ----

    /** Checks every order in turn, remembering what it saw. */
    method CheckInvariants() returns (err: Option<ScriptError>)
      requires Valid()
      modifies `checks
      ensures Valid()
      ensures match err
              case Some(e) => SimulatorCommands.CheckInvariants(old(Whole())) == Err(e)
              case None => SimulatorCommands.CheckInvariants(old(Whole())) == Ok(Whole())
    {
      hide HeapOk, Timeline, QuotesRising, OrderSound, NextCheck;
      for i := 0 to |orders|
        invariant Valid()
        invariant forall j :: 0 <= j < i ==> OrderSound(orders[j], FillRows(activities, j), old(checks)[j])
        invariant forall j :: 0 <= j < i ==> checks[j] == NextCheck(orders[j], old(checks)[j])
        invariant forall j :: i <= j < |orders| ==> checks[j] == old(checks)[j]
      {
        var o, check := orders[i], checks[i];
        if !OrderSound(o, FillRows(activities, i), check) { return Some(InvariantViolated); }
        checks := checks[i := NextCheck(o, check)];
      }
      assert checks == Checked(old(Now()), old(checks));
      err := None;
    }

    /** Applies every due event, in time order. */
    method DrainDue(now: int) returns (err: Option<ScriptError>)
      requires Valid()
      modifies `events, `counter, `order, `history, `orders, `parked, `activities, `batches, `draws
      ensures Valid() && Did(err, Drain(cfg, old(Now()), now))
    {
      hide HeapOk, Timeline, QuotesRising, SimulatorModel.Apply, EventWeight, Instruments, Insert;
      err := None;
      var due := Due(now);
      while due
        invariant (due <==> Now().queue != [] && Now().queue[0].at <= now) && (due ==> events != [])
        invariant Valid() && err.None? && Drain(cfg, Now(), now) == Drain(cfg, old(Now()), now)
        decreases Weight(Now())
      {
        ghost var c := Now();
        var e := Pop();
        ApplyShrinks(cfg, Popped(c), e.at, e.event);
        err := Apply(e.at, e.event);
        if err.Some? {
          assert Drain(cfg, c, now) == Err(err.value);
          return;
        }
        assert Drain(cfg, c, now) == Drain(cfg, Now(), now);
        due := Due(now);
      }
      assert Drain(cfg, Now(), now) == Ok(Now());
    }

    method Materialize(now: int) returns (err: Option<ScriptError>)
      requires Valid()
      modifies this
      ensures Valid()
      ensures match err
              case Some(e) => SimulatorCommands.Materialize(cfg, old(Whole()), now) == Err(e)
              case None => SimulatorCommands.Materialize(cfg, old(Whole()), now) == Ok(Whole())
    {
      hide HeapOk, Timeline, QuotesRising, Drain, AllSound, Checked;
      err := DrainDue(now);
      if err.Some? { return; }
      if materializedAt.None? || now > materializedAt.value { materializedAt := Some(now); }
      err := CheckInvariants();
    }

    // ---- scripting calls ----

    /** One public call agrees with the specified step: same answer or same error, same whole state. */
    ghost predicate Answered(err: Option<ScriptError>, answer: Answer, step: Result<Stepped, ScriptError>)
      reads this
    {
      match err case Some(e) => step == Err(e) case None => step == Ok(Stepped(Whole(), answer))
    }

    method SetQuote(k: Instrument, quote: Quote, allowCrossed: bool) returns (answer: Answer)
      requires Valid()
      modifies `events, `counter, `order, `quotes, `parked
      ensures Valid()
      ensures Configure(old(Whole()), Command.SetQuote(k, quote, allowCrossed)) == Stepped(Whole(), answer)
    {
      hide HeapOk, Timeline, Insert, Rearmed, QuotesRising;
      if quote.bid < 0.0 || quote.ask < 0.0 { return Invalid; }
      if quote.bid > quote.ask && !allowCrossed { return Invalid; }
      if materializedAt.Some? && quote.at < materializedAt.value { return Invalid; }
      var series := if k in quotes then quotes[k] else [];
      if series != [] && quote.at <= series[|series| - 1].at { return Invalid; }
      StillRising(quotes, k, quote);
      quotes := quotes[k := series + [quote]];
      var waiting := if k in parked then parked[k] else [];
      parked := parked - {k};
      Wake(quote.at, waiting);
      answer := Done;
    }

    /** Re-queues the limit orders that were waiting for a quote, in the order they were parked. */
    method Wake(at: int, waiting: seq<Waiting>)
      requires Valid()
      modifies `events, `counter, `order
      ensures Valid() && Now() == old(Now()).(queue := Rearmed(old(Now()).queue, at, waiting))
    {
      hide HeapOk, Timeline, QuotesRising, Insert;
      for i := 0 to |waiting|
        invariant Valid() && Now() == old(Now()).(queue := Now().queue)
        invariant Rearmed(Now().queue, at, waiting[i..]) == Rearmed(old(Now()).queue, at, waiting)
      {
        assert waiting[i..][0] == waiting[i] && waiting[i..][1..] == waiting[i + 1..];
        Push(MaxInt(at, waiting[i].since), waiting[i].event);
      }
    }

    method ScheduleFills(client: string, fills: seq<ScriptedFill>, terminal: Status) returns (answer: Answer)
      requires Valid()
      modifies `scripts
      ensures Valid()
      ensures Configure(old(Whole()), Command.ScheduleFills(client, fills, terminal)) == Stepped(Whole(), answer)
    {
      hide HeapOk, Timeline, QuotesRising;
      if Given(client) in clients || client in scripts { return Invalid; }
      if terminal != Filled && terminal != Canceled && terminal != Expired { return Invalid; }
      var previous := 0;
      for i := 0 to |fills|
        invariant previous == if i == 0 then 0 else fills[i - 1].offset
        invariant i > 0 ==> fills[0].offset >= 0
        invariant forall a, b :: 0 <= a < b < i ==> fills[a].offset <= fills[b].offset
        invariant forall a :: 0 <= a < i ==> fills[a].qty > 0.0 && (fills[a].price.Some? ==> fills[a].price.value > 0.0)
      {
        if fills[i].offset < previous { return Invalid; }
        previous := fills[i].offset;
        if fills[i].qty <= 0.0 || (fills[i].price.Some? && fills[i].price.value <= 0.0) { return Invalid; }
      }
      if terminal == Filled && fills == [] { return Invalid; }
      scripts := scripts[client := Script(fills, terminal)];
      answer := Done;
    }

    method OverfillNext(extra: real) returns (answer: Answer)
      requires Valid()
      modifies `overfillPending
      ensures Valid() && Configure(old(Whole()), Command.OverfillNext(extra)) == Stepped(Whole(), answer)
    {
      hide HeapOk, Timeline, QuotesRising;
      if extra <= 0.0 { return Invalid; }
      overfillPending := extra;
      answer := Done;
    }

    method SeedPosition(now: int, symbol: string, assetClass: AssetClass, qty: real, avgEntry: real, multiplier: real)
      returns (err: Option<ScriptError>, answer: Answer)
      requires Valid()
      modifies this
      ensures Valid()
      ensures Answered(err, answer,
              Step(cfg, old(Whole()), now, Command.SeedPosition(symbol, assetClass, qty, avgEntry, multiplier)))
    {
      hide HeapOk, Timeline, QuotesRising, SimulatorCommands.Materialize;
      if qty == 0.0 || avgEntry <= 0.0 || multiplier <= 0.0 { return None, Invalid; }
      answer := Invalid;
      err := Materialize(now);
      if err.Some? { return; }
      var state := StateAt(now);
      if symbol in state.holdings { return; }
      Record(State(now, state.cash, state.holdings[symbol := Holding(assetClass, qty, avgEntry, multiplier)]));
      answer := Seeded(symbol, qty);
    }

    // ---- orders ----

    /** What open sells of the symbol have not filled. */
    method CommittedTo(symbol: string) returns (total: real)
      ensures total == Committed(orders, symbol)
    {
      total := 0.0;
      for i := 0 to |orders|
        invariant total + Committed(orders[i..], symbol) == Committed(orders, symbol)
      {
        var o := orders[i];
        assert orders[i..][0] == o && orders[i..][1..] == orders[i + 1..];
        if o.instrument.symbol == symbol && o.side == Sell && IsOpenStatus(o.status) {
          total := total + o.Remaining();
        }
      }
    }

    method TotalOf(fills: seq<ScriptedFill>) returns (total: real)
      ensures total == TotalQty(fills)
    {
      total := 0.0;
      for i := 0 to |fills|
        invariant total + TotalQty(fills[i..]) == TotalQty(fills)
      {
        assert fills[i..][0] == fills[i] && fills[i..][1..] == fills[i + 1..];
        total := total + fills[i].qty;
      }
    }

    method Refusal(now: int, r: Request) returns (code: Option<int>)
      requires Valid()
      ensures code == RefusalCode(cfg, Whole(), now, r)
    {
      hide HeapOk, Timeline, QuotesRising;
      if r.qty <= 0.0 { return Some(422); }
      if r.isLimit && (r.limitPrice.None? || r.limitPrice.value <= 0.0) { return Some(422); }
      if |r.client| > 128 { return Some(422); }
      if Given(r.client) in clients { return Some(cfg.duplicateIdCode); }
      if r.side == Sell {
        var committed := CommittedTo(r.instrument.symbol);
        var available := Qty(StateAt(now).holdings, r.instrument.symbol) - committed;
        if r.qty > available && !r.oversell { return Some(403); }
      }
      code := None;
    }

    method PushAll(start: int, id: nat, fills: seq<ScriptedFill>)
      requires Valid()
      modifies `events, `counter, `order
      ensures Valid() && Now() == PushFills(old(Now()), start, id, fills)
    {
      hide HeapOk, Timeline, QuotesRising, Insert;
      for i := 0 to |fills|
        invariant Valid() && PushFills(Now(), start, id, fills[i..]) == PushFills(old(Now()), start, id, fills)
      {
        assert fills[i..][0] == fills[i] && fills[i..][1..] == fills[i + 1..];
        Push(start + fills[i].offset, Event.Fill(id, Some(fills[i].qty), fills[i].price));
      }
    }

    /** Queues the order's deterministic schedule: start, fills, scripted terminal, day expiry. */
    method QueueSchedule(id: nat, openNow: bool, start: int, script: Script, expires: bool)
      requires Valid()
      modifies `events, `counter, `order
      ensures Valid() && Now() == ScheduleOrder(cfg, old(Now()), id, openNow, start, script, expires)
    {
      hide HeapOk, Timeline, QuotesRising, SimulatorModel.Push, PushFills;
      if !openNow { Push(start, Start(id)); }
      if script.fills != [] {
        PushAll(start, id, script.fills);
        if script.terminal != Filled {
          Push(start + script.fills[|script.fills| - 1].offset, Terminal(id, script.terminal));
        }
      } else if script.terminal == Filled {
        Push(start + cfg.fillLatency, Event.Fill(id, None, None));
      }
      if expires {
        var close := NextClose(cfg.session, start);
        if close.Some? { Push(close.value, Expire(id)); }
      }
    }

    /** Every check runs before any state changes. */
    method Place(now: int, r: Request) returns (err: Option<ScriptError>, answer: Answer)
      requires Valid()
      modifies this
      ensures Valid() && Answered(err, answer, Step(cfg, old(Whole()), now, Command.Place(r)))
    {
      hide HeapOk, Timeline, QuotesRising, SimulatorCommands.Materialize, RefusalCode, TotalQty, Booked;
      answer := Invalid;
      err := Materialize(now);
      if err.Some? { return; }
      var refusal := Refusal(now, r);
      if refusal.Some? { return None, HttpError(refusal.value); }
      var openNow := r.instrument.assetClass == Crypto || IsOpen(cfg.session, now);
      var start := if openNow then Some(now) else NextOpen(cfg.session, now);
      if start.None? { return None, ScriptRefused; }
      var script := if r.client in scripts then scripts[r.client] else Script([], Filled);
      var total := TotalOf(script.fills);
      if script.fills != [] && (total > r.qty || (script.terminal == Filled && total != r.qty)) {
        scripts := scripts - {r.client};
        return None, ScriptRefused;
      }
      var id := Book(now, r, openNow, start.value, script);
      answer := Answer.Placed(id);
    }

    method Book(now: int, r: Request, openNow: bool, start: int, script: Script) returns (id: nat)
      requires Valid() && script == ScriptFor(Whole(), r.client)
      modifies `events, `counter, `order, `orders, `draws, `clients, `scripts, `overfillPending, `checks
      ensures Valid() && id == old(|orders|) && Whole() == Accept(cfg, old(Whole()), now, r, openNow, start)
    {
      hide HeapOk, Timeline, QuotesRising, ScheduleOrder;
      ghost var before := Whole();
      scripts := scripts - {r.client};
      id := AddOrder(now, r, openNow);
      ghost var o := NewOrder(cfg, before, now, r, openNow);
      assert orders == before.core.orders + [o];
      QueueSchedule(id, openNow, start, script, r.day && r.instrument.assetClass != Crypto);
    }

    method AddOrder(now: int, r: Request, openNow: bool) returns (id: nat)
      requires Valid()
      modifies `counter, `orders, `draws, `clients, `overfillPending, `checks
      ensures Valid() && id == old(|orders|) && overfillPending == 0.0 && checks == old(checks) + [Check(0.0, None)]
      ensures var o := NewOrder(cfg, old(Whole()), now, r, openNow);
              orders == old(orders) + [o] && clients == old(clients)[o.client := id]
      ensures draws == old(draws) + (if r.client == "" then 2 else 1)
    {
      hide Timeline;
      counter := counter + 1;
      var client := if r.client == "" then Generated(draws) else Given(r.client);
      var o := Order(client, r.instrument, r.side, r.qty,
                     if r.isLimit then r.limitPrice else None, cfg.multiplier(r.instrument), now,
                     if openNow then New else Accepted, if openNow then Some(now) else None, now, None, None, None,
                     0.0, 0.0, None, 0, r.oversell, overfillPending, 0.0);
      assert o == NewOrder(cfg, Whole(), now, r, openNow);
      id := |orders|;
      draws := draws + (if r.client == "" then 2 else 1);
      overfillPending := 0.0;
      orders := orders + [o];
      checks := checks + [Check(0.0, None)];
      clients := clients[client := id];
    }

    method Cancel(now: int, id: nat) returns (err: Option<ScriptError>, answer: Answer)
      requires Valid()
      modifies this
      ensures Valid() && Answered(err, answer, Step(cfg, old(Whole()), now, Command.Cancel(id)))
    {
      hide HeapOk, Timeline, QuotesRising, SimulatorCommands.Materialize, SimulatorCommands.CheckInvariants;
      answer := Invalid;
      err := Materialize(now);
      if err.Some? { return; }
      if id >= |orders| { return None, HttpError(404); }
      if IsTerminal(orders[id].status) {
        return None, if cfg.paperCancelReturns204 then Done else HttpError(422);
      }
      Finish(id, Canceled, now);
      err := CheckInvariants();
      answer := Done;
    }

    /** Any read: applies what is due and then only looks. */
    method GetOrder(now: int, id: nat) returns (err: Option<ScriptError>, report: Option<Report>)
      requires Valid()
      modifies this
      ensures Valid() && Answered(err, Done, Step(cfg, old(Whole()), now, Read))
      ensures err.None? ==> report == if id < |orders| then Some(ReportOf(orders[id])) else None
    {
      hide HeapOk, Timeline, QuotesRising, SimulatorCommands.Materialize;
      report := None;
      err := Materialize(now);
      if err.None? && id < |orders| { report := Some(ReportOf(orders[id])); }
    }
  }

  lemma ChargesOnly(cfg: Config, o: Order, at: int, qty: real, price: real)
    requires cfg.fees.Some?
    ensures o.instrument.assetClass == Crypto || (o.instrument.assetClass == OptionContract && o.side == Buy) ==>
              Charges(cfg, o, at, qty, price) == []
  {
  }

  /** One charge, then the rest. */
  lemma {:induction false} AccrueFirst(cfg: Config, c: Core, at: int, charges: seq<Charge>)
    requires cfg.fees.Some? && charges != []
    ensures var x := charges[0];
            AccrueAll(cfg, c, at, charges)
            == match Accrue(c, at, x.key, PostsAt(cfg, x.key), x.amount, x.proceeds, x.units)
               case Err(e) => Err(e)
               case Ok(next) => if charges[1..] == [] then Ok(next) else AccrueAll(cfg, next, at, charges[1..])
  {
  }

  lemma LeastLeaves(events: seq<Entry>, order: seq<Entry>, least: nat)
    requires multiset(events) == multiset(order) && order != [] && least < |events| && order[0] == events[least]
    ensures multiset(events[..least] + events[least + 1..]) == multiset(order[1..])
  {
    var e := events[least];
    assert events == events[..least] + [e] + events[least + 1..];
    assert order == [e] + order[1..];
    assert multiset(events[..least] + events[least + 1..]) == multiset(events) - multiset{e};
    assert multiset(order[1..]) == multiset(order) - multiset{e};
  }

  lemma HeadIsLeast(events: seq<Entry>, order: seq<Entry>, least: nat)
    requires multiset(events) == multiset(order) && Ascending(order) && least < |events|
    requires forall i :: 0 <= i < |events| ==> !Earlier(events[i], events[least])
    ensures order != [] && order[0] == events[least]
  {
    assert events[least] in multiset(events);
    var i :| 0 <= i < |order| && order[i] == events[least];
    assert order[0] in multiset(order);
    var j :| 0 <= j < |events| && events[j] == order[0];
    assert !Earlier(order[0], order[i]);
  }
}
