/** The observed past is immutable: once a read has observed an instant, the holdings, cash, quotes and equity of every
    earlier instant since the start are the same after any later calls. */
module SimulatorTimeline {
  import opened Common
  import opened TradingSession
  import opened SimulatorModel
  import opened SimulatorCommands
  import opened SimulatorOrders
  import opened SimulatorPolling

  function LastAt(history: seq<State>): int
    requires history != []
  {
    history[|history| - 1].at
  }

  predicate HistoryRising(history: seq<State>) {
    forall i, j :: 0 <= i < j < |history| ==> history[i].at < history[j].at
  }

  predicate Sorted(queue: seq<Timed>) {
    forall i, j :: 0 <= i < j < |queue| ==> queue[i].at <= queue[j].at
  }

  predicate NotBefore(queue: seq<Timed>, floor: int) {
    forall t :: t in queue ==> t.at >= floor
  }

  /** History is strictly increasing up to `floor` and nothing queued precedes it. */
  ghost predicate InOrder(c: Core, floor: int) {
    && c.history != [] && HistoryRising(c.history) && LastAt(c.history) <= floor
    && Sorted(c.queue) && NotBefore(c.queue, floor)
  }

  /** The fee scenario's delays, which its constructor does not check. */
  predicate DelaysOk(cfg: Config) {
    cfg.fees.Some? ==>
      var posting := cfg.fees.value.posting;
      posting.occDelay >= 0 && posting.cfeeAssetDelay >= 0 && posting.cfeeUsdDelay >= 0
  }

  // ---- equity ----

  function Mark(quotes: map<Instrument, seq<Quote>>, symbol: string, h: Holding, at: int): Option<real> {
    var q := QuoteAt(SeriesOf(quotes, Instrument(symbol, h.assetClass)), at);
    if q.None? then None else Some((q.value.bid + q.value.ask) / 2.0)
  }

  ghost function AnySymbol(holdings: map<string, Holding>): (symbol: string)
    requires |holdings| != 0
    ensures symbol in holdings
  {
    var symbol :| symbol in holdings;
    symbol
  }

  function MarkedAt(h: Holding, mark: real): real { h.qty * mark * h.multiplier }

  function Summed(rest: Option<(real, real)>, h: Holding, mark: Option<real>): Option<(real, real)> {
    if mark.None? || rest.None? then None
    else
      var value := MarkedAt(h, mark.value);
      Some(if value >= 0.0 then (rest.value.0 + value, rest.value.1) else (rest.value.0, rest.value.1 + value))
  }

  /** Long and short market value; None when a held symbol has no quote yet. */
  ghost function MarketValue(quotes: map<Instrument, seq<Quote>>, holdings: map<string, Holding>, at: int)
    : Option<(real, real)>
    decreases |holdings|
  {
    if |holdings| == 0 then Some((0.0, 0.0))
    else
      var symbol := AnySymbol(holdings);
      var h := holdings[symbol];
      Summed(MarketValue(quotes, holdings - {symbol}, at), h, Mark(quotes, symbol, h, at))
  }

  /** Cash plus marked positions at any instant, replayed from the history. */
  ghost function EquityAt(c: Core, at: int): Option<real>
    requires c.history != []
  {
    var s := StateAt(c.history, at);
    var value := MarketValue(c.quotes, s.holdings, at);
    if value.None? then None else Some(s.cash + value.value.0 + value.value.1)
  }

  ghost predicate SameQuotesAt(a: map<Instrument, seq<Quote>>, b: map<Instrument, seq<Quote>>, at: int) {
    forall k :: QuoteAt(SeriesOf(a, k), at) == QuoteAt(SeriesOf(b, k), at)
  }

  lemma {:induction false} SameMarketValue(a: map<Instrument, seq<Quote>>, b: map<Instrument, seq<Quote>>,
                                           holdings: map<string, Holding>, at: int)
    requires SameQuotesAt(a, b, at)
    ensures MarketValue(a, holdings, at) == MarketValue(b, holdings, at)
    decreases |holdings|
  {
    if |holdings| != 0 {
      var symbol := AnySymbol(holdings);
      SameMarketValue(a, b, holdings - {symbol}, at);
      var k := Instrument(symbol, holdings[symbol].assetClass);
      assert QuoteAt(SeriesOf(a, k), at) == QuoteAt(SeriesOf(b, k), at);
      assert Mark(a, symbol, holdings[symbol], at) == Mark(b, symbol, holdings[symbol], at);
      hide Mark, QuoteAt;
      assert MarketValue(a, holdings, at)
        == Summed(MarketValue(a, holdings - {symbol}, at), holdings[symbol], Mark(a, symbol, holdings[symbol], at));
      assert MarketValue(b, holdings, at)
        == Summed(MarketValue(b, holdings - {symbol}, at), holdings[symbol], Mark(b, symbol, holdings[symbol], at));
    }
  }

  /** Everything a reader could have seen about the instant `at` is the same. */
  ghost predicate SameAt(a: Core, b: Core, at: int)
    requires a.history != [] && b.history != []
  {
    && StateAt(a.history, at) == StateAt(b.history, at)
    && SameQuotesAt(a.quotes, b.quotes, at)
    && EquityAt(a, at) == EquityAt(b, at)
  }

  lemma SameAtFrom(a: Core, b: Core, at: int)
    requires a.history != [] && b.history != []
    requires StateAt(a.history, at) == StateAt(b.history, at) && SameQuotesAt(a.quotes, b.quotes, at)
    ensures SameAt(a, b, at)
  {
    SameMarketValue(a.quotes, b.quotes, StateAt(a.history, at).holdings, at);
  }

  // ---- one event ----

  lemma {:induction false} InsertSorted(queue: seq<Timed>, at: int, event: Event, floor: int)
    requires Sorted(queue) && NotBefore(queue, floor) && at >= floor
    ensures Sorted(Insert(queue, at, event)) && NotBefore(Insert(queue, at, event), floor)
  {
    InsertMembers(queue, at, event);
    if queue != [] && at >= queue[0].at {
      assert Sorted(queue[1..]) && NotBefore(queue[1..], queue[0].at);
      InsertSorted(queue[1..], at, event, queue[0].at);
      var rest := Insert(queue[1..], at, event);
      assert forall j :: 0 <= j < |rest| ==> rest[j] in rest;
    }
  }

  lemma {:induction false} BisectPrefix(instants: seq<int>, more: seq<int>, at: int)
    requires forall x :: x in more ==> x > at
    ensures BisectRight(instants + more, at) == BisectRight(instants, at)
  {
    if instants == [] {
      assert instants + more == more && (more != [] ==> more[0] in more);
    } else if instants[0] <= at {
      assert (instants + more)[1..] == instants[1..] + more;
      BisectPrefix(instants[1..], more, at);
    }
  }

  lemma {:induction false} BisectPositive(instants: seq<int>, at: int)
    requires instants != [] && instants[0] <= at
    ensures BisectRight(instants, at) >= 1
  {
  }

  lemma StateAtPrefix(history: seq<State>, s: State, at: int)
    requires history != [] && history[0].at <= at < s.at
    ensures StateAt(history + [s], at) == StateAt(history, at)
  {
    assert StateTimes(history + [s]) == StateTimes(history) + [s.at];
    BisectPrefix(StateTimes(history), [s.at], at);
    BisectPositive(StateTimes(history), at);
  }

  /** Recording a state rewrites nothing earlier than it, except before the very first instant. */
  lemma RecordKeepsPast(history: seq<State>, s: State, at: int)
    requires history != [] && HistoryRising(history) && LastAt(history) <= s.at && history[0].at <= at < s.at
    ensures StateAt(Record(history, s), at) == StateAt(history, at)
  {
    if s.at == LastAt(history) {
      var kept := history[..|history| - 1];
      assert history == kept + [history[|history| - 1]];
      StateAtPrefix(kept, history[|history| - 1], at);
      StateAtPrefix(kept, s, at);
    } else {
      StateAtPrefix(history, s, at);
    }
  }

  lemma RecordRises(history: seq<State>, s: State)
    requires history != [] && HistoryRising(history) && LastAt(history) <= s.at
    ensures HistoryRising(Record(history, s)) && LastAt(Record(history, s)) == s.at
    ensures Record(history, s)[0].at == history[0].at
  {
  }

  /** The state in force at or after the last record is that record. */
  lemma {:induction false} StateAtEnd(history: seq<State>, at: int)
    requires history != [] && HistoryRising(history) && LastAt(history) <= at
    ensures StateAt(history, at) == history[|history| - 1]
  {
    var times := StateTimes(history);
    var i := BisectRight(times, at);
    if i < |history| {
      assert times[i] > at;
      assert history[i].at <= LastAt(history);
    }
  }

  lemma {:induction false} AccrueAllInOrder(cfg: Config, c: Core, at: int, charges: seq<Charge>)
    requires cfg.fees.Some? && InOrder(c, at)
    ensures var r := AccrueAll(cfg, c, at, charges);
            r.Ok? ==> InOrder(r.value, at) && r.value == c.(queue := r.value.queue, batches := r.value.batches)
    decreases |charges|
  {
    if charges != [] {
      var x := charges[0];
      var r := Accrue(c, at, x.key, PostsAt(cfg, x.key), x.amount, x.proceeds, x.units);
      if r.Ok? {
        if PostsAt(cfg, x.key) >= at { InsertSorted(c.queue, PostsAt(cfg, x.key), PostBatch(x.key), at); }
        AccrueAllInOrder(cfg, r.value, at, charges[1..]);
      }
    }
  }

  /** A fill keeps the queue from running behind the clock exactly when its own fee, if it posts one, is not earlier
      than the fill: the one place where an unchecked delay can break the timeline. */
  lemma AccrueFeesInOrder(cfg: Config, c: Core, o: Order, at: int, qty: real, price: real, suffix: nat)
    requires InOrder(c, at)
    requires cfg.fees.Some? ==>
               var own := OwnFee(cfg, o, at, qty, price, suffix); own.Some? ==> own.value.at >= at
    ensures var r := AccrueFees(cfg, c, o, at, qty, price, suffix);
            r.Ok? ==> InOrder(r.value, at) && r.value == c.(queue := r.value.queue, batches := r.value.batches)
  {
    if cfg.fees.Some? {
      var own := OwnFee(cfg, o, at, qty, price, suffix);
      var queued := if own.Some? then Push(c, own.value.at, own.value.event) else c;
      if own.Some? { InsertSorted(c.queue, own.value.at, own.value.event, at); }
      AccrueAllInOrder(cfg, queued, at, Charges(cfg, o, at, qty, price));
    }
  }

  lemma {:induction false} AccrueAllKeepsQueued(cfg: Config, c: Core, at: int, charges: seq<Charge>, t: Timed)
    requires cfg.fees.Some? && t in c.queue
    ensures var r := AccrueAll(cfg, c, at, charges); r.Ok? ==> t in r.value.queue
    decreases |charges|
  {
    if charges != [] {
      var x := charges[0];
      var r := Accrue(c, at, x.key, PostsAt(cfg, x.key), x.amount, x.proceeds, x.units);
      InsertMembers(c.queue, PostsAt(cfg, x.key), PostBatch(x.key));
      if r.Ok? { AccrueAllKeepsQueued(cfg, r.value, at, charges[1..], t); }
    }
  }

  lemma EarlyFeeBreaksOrder(cfg: Config, c: Core, o: Order, at: int, qty: real, price: real, suffix: nat)
    requires InOrder(c, at) && cfg.fees.Some? && AccrueFees(cfg, c, o, at, qty, price, suffix).Ok?
    ensures var own := OwnFee(cfg, o, at, qty, price, suffix);
            InOrder(AccrueFees(cfg, c, o, at, qty, price, suffix).value, at) <==> (own.Some? ==> own.value.at >= at)
  {
    var own := OwnFee(cfg, o, at, qty, price, suffix);
    if own.None? || own.value.at >= at {
      AccrueFeesInOrder(cfg, c, o, at, qty, price, suffix);
    } else {
      InsertMembers(c.queue, own.value.at, own.value.event);
      AccrueAllKeepsQueued(cfg, Push(c, own.value.at, own.value.event), at, Charges(cfg, o, at, qty, price), own.value);
    }
  }

  ghost predicate PastKept(before: seq<State>, after: seq<State>, at: int)
    requires before != []
  {
    && after != [] && after[0].at == before[0].at
    && forall u :: before[0].at <= u < at ==> StateAt(after, u) == StateAt(before, u)
  }

  lemma RecordPastKept(history: seq<State>, s: State)
    requires history != [] && HistoryRising(history) && LastAt(history) <= s.at
    ensures PastKept(history, Record(history, s), s.at)
  {
    RecordRises(history, s);
    forall u | history[0].at <= u < s.at ensures StateAt(Record(history, s), u) == StateAt(history, u) {
      RecordKeepsPast(history, s, u);
    }
  }

  lemma ExecuteInOrder(cfg: Config, c: Core, id: nat, at: int, scripted: real, price: real)
    requires DelaysOk(cfg) && InOrder(c, at) && id < |c.orders|
    ensures var r := Execute(cfg, c, id, at, scripted, price);
            r.Ok? ==> InOrder(r.value, at) && PastKept(c.history, r.value.history, at) && r.value.quotes == c.quotes
  {
    hide AccrueFees, WithFill, HoldingsAfterFill, PastKept;
    var executed := Executed(cfg, c, id, at, scripted, price);
    var o := executed.orders[id];
    var qty := scripted + c.orders[id].overfill;
    var booked := BookFill(c.history, o, at, qty, price);
    if booked.Ok? {
      var last := booked.value[|booked.value| - 1];
      RecordRises(c.history, last);
      RecordPastKept(c.history, last);
      AccrueFeesInOrder(cfg, executed.(history := booked.value), o, at, qty, price, c.draws);
    }
  }

  lemma RearmInOrder(c: Core, k: Instrument, at: int, event: Event)
    requires InOrder(c, at)
    ensures InOrder(Rearm(c, k, at, event), at)
  {
    var later := Later(SeriesOf(c.quotes, k), at);
    if later != [] {
      assert later[0] in later;
      InsertSorted(c.queue, later[0].at, event, at);
    }
  }

  lemma ChargedInOrder(c: Core, at: int, row: Row, cashDelta: real, coinDelta: Option<(string, real)>)
    requires InOrder(c, at)
    ensures var r := Charged(c, at, row, cashDelta, coinDelta);
            r.Ok? ==> InOrder(r.value, at) && PastKept(c.history, r.value.history, at) && r.value.quotes == c.quotes
  {
    hide PastKept;
    var booked := BookFee(c.history, at, cashDelta, coinDelta);
    if booked.Ok? {
      var last := booked.value[|booked.value| - 1];
      RecordRises(c.history, last);
      RecordPastKept(c.history, last);
    }
  }

  lemma ApplyFeeInOrder(cfg: Config, c: Core, at: int, event: Event)
    requires InOrder(c, at) && (event.PostBatch? || event.PostRow?)
    ensures var r := ApplyFee(cfg, c, at, event);
            r.Ok? ==> InOrder(r.value, at) && PastKept(c.history, r.value.history, at) && r.value.quotes == c.quotes
  {
    hide Charged;
    if event.PostRow? {
      ChargedInOrder(c, at, SingleFeeRow(event.row), event.row.cashDelta, event.row.coinDelta);
    } else if cfg.fees.Some? && event.key in c.batches {
      var b := c.batches[event.key];
      var posted := c.(batches := c.batches[event.key := b.(posted := true)]);
      var amount := cfg.fees.value.rates.cents(b.amount);
      ChargedInOrder(posted, at, BatchRow(event.key, -amount), -amount, None);
    }
  }

  /** One event at `at` changes nothing before `at` and queues nothing before `at`. */
  lemma ApplyInOrder(cfg: Config, c: Core, at: int, event: Event)
    requires DelaysOk(cfg) && InOrder(c, at)
    ensures var r := Apply(cfg, c, at, event);
            r.Ok? ==> InOrder(r.value, at) && PastKept(c.history, r.value.history, at) && r.value.quotes == c.quotes
  {
    hide Execute, ApplyFee;
    if event.PostBatch? || event.PostRow? {
      ApplyFeeInOrder(cfg, c, at, event);
    } else if event.orderId < |c.orders| && !IsTerminal(c.orders[event.orderId].status) {
      var o := c.orders[event.orderId];
      if event.Fill? {
        var plan := PlanFill(c.quotes, o, at, event);
        if plan.Wait? {
          RearmInOrder(c, o.instrument, at, event);
        } else if plan.Take? {
          ExecuteInOrder(cfg, c, event.orderId, at, plan.scripted, plan.price);
        }
      }
    }
  }

  // ---- draining ----

  lemma PastKeptTrans(a: seq<State>, b: seq<State>, c: seq<State>, at: int, later: int)
    requires a != [] && b != [] && at <= later && PastKept(a, b, at) && PastKept(b, c, later)
    ensures PastKept(a, c, at)
  {
    forall u | a[0].at <= u < at ensures StateAt(c, u) == StateAt(a, u) {
      assert StateAt(b, u) == StateAt(a, u);
    }
  }

  lemma PoppedInOrder(c: Core, floor: int)
    requires InOrder(c, floor) && c.queue != []
    ensures InOrder(Popped(c), c.queue[0].at) && floor <= c.queue[0].at
  {
    assert c.queue[0] in c.queue;
    forall t | t in c.queue[1..] ensures t.at >= c.queue[0].at {
      var i :| 0 <= i < |c.queue[1..]| && c.queue[1..][i] == t;
      assert t == c.queue[i + 1];
    }
  }

  lemma {:induction false} DrainInOrder(cfg: Config, c: Core, floor: int, now: int)
    requires DelaysOk(cfg) && InOrder(c, floor) && floor <= now
    ensures var r := Drain(cfg, c, now);
            r.Ok? ==> InOrder(r.value, now) && PastKept(c.history, r.value.history, floor) && r.value.quotes == c.quotes
    decreases Weight(c)
  {
    if c.queue != [] && c.queue[0].at <= now {
      var head := c.queue[0];
      PoppedInOrder(c, floor);
      ApplyInOrder(cfg, Popped(c), head.at, head.event);
      ApplyShrinks(cfg, Popped(c), head.at, head.event);
      var next := Apply(cfg, Popped(c), head.at, head.event);
      if next.Ok? {
        DrainInOrder(cfg, next.value, head.at, now);
        if Drain(cfg, next.value, now).Ok? {
          PastKeptTrans(c.history, next.value.history, Drain(cfg, next.value, now).value.history, floor, head.at);
        }
      }
    } else {
      forall t | t in c.queue ensures t.at >= now {
        var i :| 0 <= i < |c.queue| && c.queue[i] == t;
        assert c.queue[0].at <= c.queue[i].at;
      }
    }
  }

  // ---- whole calls ----

  /** Nothing recorded is later than the floor; nothing queued is earlier. */
  function Floor(w: World): int
    requires w.core.history != []
  {
    if w.materializedAt.Some? then w.materializedAt.value else LastAt(w.core.history)
  }

  ghost predicate OffsetsOk(scripts: map<string, Script>) {
    forall s :: s in scripts ==> forall i :: 0 <= i < |scripts[s].fills| ==> scripts[s].fills[i].offset >= 0
  }

  ghost predicate TimelineOk(w: World) {
    && w.core.history != []
    && InOrder(w.core, Floor(w))
    && Scripted(w)
    && OffsetsOk(w.scripts)
  }

  /** What no later call may change: everything about every instant since the start and before the last read. */
  ghost predicate PastSame(before: World, after: World)
    requires before.core.history != []
  {
    && after.core.history != [] && after.core.history[0].at == before.core.history[0].at
    && (before.materializedAt.Some? ==>
       after.materializedAt.Some? && before.materializedAt.value <= after.materializedAt.value)
    && (before.materializedAt.Some? ==>
          forall u :: before.core.history[0].at <= u < before.materializedAt.value ==>
            SameAt(before.core, after.core, u))
  }

  lemma PastSameTrans(a: World, b: World, c: World)
    requires a.core.history != [] && b.core.history != [] && PastSame(a, b) && PastSame(b, c)
    ensures PastSame(a, c)
  {
    if a.materializedAt.Some? {
      forall u | a.core.history[0].at <= u < a.materializedAt.value ensures SameAt(a.core, c.core, u) {
        assert SameAt(a.core, b.core, u) && SameAt(b.core, c.core, u);
      }
    }
  }

  lemma PastSameFrom(before: World, after: World)
    requires before.core.history != [] && PastKept(before.core.history, after.core.history, Floor(before))
    requires before.materializedAt.Some? ==>
             after.materializedAt.Some? && before.materializedAt.value <= after.materializedAt.value
    requires before.materializedAt.Some? ==>
               forall u :: u < before.materializedAt.value ==> SameQuotesAt(before.core.quotes, after.core.quotes, u)
    ensures PastSame(before, after)
  {
    if before.materializedAt.Some? {
      forall u | before.core.history[0].at <= u < before.materializedAt.value
        ensures SameAt(before.core, after.core, u)
      {
        SameAtFrom(before.core, after.core, u);
      }
    }
  }

  lemma MaterializeTimeline(cfg: Config, w: World, now: int)
    requires DelaysOk(cfg) && TimelineOk(w) && Floor(w) <= now
    ensures var r := Materialize(cfg, w, now);
            r.Ok? ==> TimelineOk(r.value) && r.value.materializedAt == Some(now) && PastSame(w, r.value)
  {
    DrainInOrder(cfg, w.core, Floor(w), now);
    MaterializeScripted(cfg, w, now);
    if Materialize(cfg, w, now).Ok? { PastSameFrom(w, Materialize(cfg, w, now).value); }
  }

  lemma PushInOrder(c: Core, at: int, event: Event, floor: int)
    requires InOrder(c, floor) && at >= floor
    ensures InOrder(Push(c, at, event), floor)
  {
    InsertSorted(c.queue, at, event, floor);
  }

  lemma {:induction false} PushFillsInOrder(c: Core, start: int, id: nat, fills: seq<ScriptedFill>, floor: int)
    requires InOrder(c, floor) && start >= floor && forall i :: 0 <= i < |fills| ==> fills[i].offset >= 0
    ensures InOrder(PushFills(c, start, id, fills), floor)
    decreases |fills|
  {
    if fills != [] {
      var next := Push(c, start + fills[0].offset, Fill(id, Some(fills[0].qty), fills[0].price));
      PushInOrder(c, start + fills[0].offset, Fill(id, Some(fills[0].qty), fills[0].price), floor);
      PushFillsInOrder(next, start, id, fills[1..], floor);
    }
  }

  lemma ScheduleInOrder(cfg: Config, c: Core, id: nat, openNow: bool, start: int, script: Script, expires: bool,
                        floor: int)
    requires ValidConfig(cfg) && InOrder(c, floor) && start >= floor
    requires forall i :: 0 <= i < |script.fills| ==> script.fills[i].offset >= 0
    ensures InOrder(ScheduleOrder(cfg, c, id, openNow, start, script, expires), floor)
  {
    hide InOrder, PushFills, Push;
    var started := if openNow then c else Push(c, start, Start(id));
    PushInOrder(c, start, Start(id), floor);
    var pushed := PushFills(started, start, id, script.fills);
    PushFillsInOrder(started, start, id, script.fills, floor);
    var filled :=
      if script.fills != [] then
        if script.terminal != Filled
        then Push(pushed, start + script.fills[|script.fills| - 1].offset, Terminal(id, script.terminal)) else pushed
      else if script.terminal == Filled then Push(started, start + cfg.fillLatency, Fill(id, None, None))
      else started;
    if script.fills != [] && script.terminal != Filled {
      PushInOrder(pushed, start + script.fills[|script.fills| - 1].offset, Terminal(id, script.terminal), floor);
    }
    PushInOrder(started, start + cfg.fillLatency, Fill(id, None, None), floor);
    var close := NextClose(cfg.session, start);
    if close.Some? { PushInOrder(filled, close.value, Expire(id), floor); }
  }

  lemma BookedInOrder(cfg: Config, w: World, now: int, r: Request, openNow: bool, start: int)
    requires ValidConfig(cfg) && TimelineOk(w) && Floor(w) == now && start >= now
    ensures InOrder(Booked(cfg, w, now, r, openNow, start), now)
  {
    hide ScheduleOrder;
    var core := w.core.(orders := w.core.orders + [NewOrder(cfg, w, now, r, openNow)],
                        draws := w.core.draws + (if r.client == "" then 2 else 1));
    ScheduleInOrder(cfg, core, |w.core.orders|, openNow, start, ScriptFor(w, r.client),
                    r.day && r.instrument.assetClass != Crypto, now);
  }

  lemma PlaceTimeline(cfg: Config, w: World, now: int, r: Request)
    requires ValidConfig(cfg) && TimelineOk(w) && w.materializedAt == Some(now)
    ensures var s := PlaceOrder(cfg, w, now, r).world;
            TimelineOk(s) && s.materializedAt == Some(now) && PastSame(w, s)
  {
    hide Booked, RefusalCode, TotalQty, SameAt;
    PlaceFrame(cfg, w, now, r);
    PlaceKeepsHistory(cfg, w, now, r);
    var openNow := r.instrument.assetClass == Crypto || IsOpen(cfg.session, now);
    var start := if openNow then Some(now) else NextOpen(cfg.session, now);
    if start.Some? {
      BookedInOrder(cfg, w, now, r, openNow, start.value);
    }
    PastSameFrom(w, PlaceOrder(cfg, w, now, r).world);
  }

  lemma SeedTimeline(w: World, now: int, cmd: Command)
    requires TimelineOk(w) && w.materializedAt == Some(now) && cmd.SeedPosition?
    ensures var s := w.(core := SeedCore(w.core, now, cmd)); TimelineOk(s) && PastSame(w, s)
  {
    hide SameAt;
    var s := w.(core := SeedCore(w.core, now, cmd));
    var last := s.core.history[|s.core.history| - 1];
    RecordRises(w.core.history, last);
    RecordPastKept(w.core.history, last);
    PastSameFrom(w, s);
  }

  lemma {:induction false} RearmedInOrder(c: Core, at: int, waiting: seq<Waiting>, floor: int)
    requires InOrder(c, floor) && at >= floor
    ensures InOrder(c.(queue := Rearmed(c.queue, at, waiting)), floor)
    decreases |waiting|
  {
    if waiting != [] {
      InsertSorted(c.queue, MaxInt(at, waiting[0].since), waiting[0].event, floor);
      RearmedInOrder(c.(queue := Insert(c.queue, MaxInt(at, waiting[0].since), waiting[0].event)), at, waiting[1..],
        floor);
    }
  }

  lemma WithQuoteSame(c: Core, k: Instrument, q: Quote, at: int)
    requires q.at > at
    ensures SameQuotesAt(c.quotes, WithQuote(c, k, q).quotes, at)
  {
    QuoteAtAppend(SeriesOf(c.quotes, k), q, at);
  }

  lemma NoneIn(waiting: seq<Waiting>)
    ensures (forall x :: x !in waiting) ==> waiting == []
  {
    assert waiting == [] || waiting[0] in waiting;
  }

  lemma QuoteInOrder(w: World, cmd: Command)
    requires TimelineOk(w) && cmd.SetQuote? && QuoteAccepted(w, cmd.instrument, cmd.quote, cmd.allowCrossed)
    ensures InOrder(WithQuote(w.core, cmd.instrument, cmd.quote), Floor(w))
  {
    if w.materializedAt.Some? {
      RearmedInOrder(w.core, cmd.quote.at, ParkedOn(w.core.parked, cmd.instrument), Floor(w));
    } else {
      NoneIn(ParkedOn(w.core.parked, cmd.instrument));
    }
  }

  lemma ConfigureTimeline(w: World, cmd: Command)
    requires TimelineOk(w) && !Materializes(cmd)
    ensures var s := Configure(w, cmd).world; TimelineOk(s) && PastSame(w, s) && Floor(s) == Floor(w)
  {
    hide SameAt, InOrder;
    assert w.core.history != [];
    QuoteStepScripted(w, cmd);
    var s := Configure(w, cmd).world;
    if cmd.SetQuote? && QuoteAccepted(w, cmd.instrument, cmd.quote, cmd.allowCrossed) {
      QuoteInOrder(w, cmd);
      if w.materializedAt.Some? {
        forall u | u < w.materializedAt.value ensures SameQuotesAt(w.core.quotes, s.core.quotes, u) {
          WithQuoteSame(w.core, cmd.instrument, cmd.quote, u);
        }
      }
    }
    PastSameFrom(w, s);
  }

  lemma StepTimeline(cfg: Config, w: World, now: int, cmd: Command)
    requires ValidConfig(cfg) && DelaysOk(cfg) && TimelineOk(w) && Floor(w) <= now
    ensures var s := Step(cfg, w, now, cmd);
            s.Ok? ==> TimelineOk(s.value.world) && Floor(s.value.world) <= now && PastSame(w, s.value.world)
  {
    hide SameAt, InOrder, Scripted, OffsetsOk, PlaceOrder, PastSame;
    if !Materializes(cmd) {
      ConfigureTimeline(w, cmd);
    } else {
      MaterializeTimeline(cfg, w, now);
      var m := Materialize(cfg, w, now);
      if m.Ok? {
        var r := Act(cfg, m.value, now, cmd);
        match cmd {
          case Read =>
          case SeedPosition(_, _, _, _, _) => SeedTimeline(m.value, now, cmd);
          case Place(request) => PlaceTimeline(cfg, m.value, now, request);
          case Cancel(id) => if r.Ok? { CancelTimeline(cfg, m.value, now, id); }
        }
        if r.Ok? {
          SelfSame(m.value);
          PastSameTrans(w, m.value, r.value.world);
        }
      }
    }
  }

  lemma SelfSame(w: World)
    requires w.core.history != []
    ensures PastSame(w, w)
  {
  }

  lemma CancelTimeline(cfg: Config, w: World, now: int, id: nat)
    requires TimelineOk(w) && w.materializedAt == Some(now) && CancelOrder(cfg, w, now, id).Ok?
    ensures var s := CancelOrder(cfg, w, now, id).value.world;
            TimelineOk(s) && s.materializedAt == Some(now) && PastSame(w, s)
  {
    hide SameAt, AllSound;
    PastSameFrom(w, CancelOrder(cfg, w, now, id).value.world);
  }

  /** Over every script of calls: nothing about an instant already read (since the start, before the read) ever
      changes. */
  lemma {:induction false} ObservedPastIsImmutable(cfg: Config, w: World, script: seq<Call>)
    requires ValidConfig(cfg) && DelaysOk(cfg) && TimelineOk(w) && ClockForward(Floor(w), script)
    ensures var r := Run(cfg, w, script); r.Ok? ==> TimelineOk(r.value.world) && PastSame(w, r.value.world)
    decreases |script|
  {
    hide SameAt, InOrder, Scripted, OffsetsOk, PastSame, Step;
    if script == [] {
      SelfSame(w);
    } else {
      StepTimeline(cfg, w, script[0].now, script[0].cmd);
      var s := Step(cfg, w, script[0].now, script[0].cmd);
      if s.Ok? {
        ClockEarlier(Floor(s.value.world), script[0].now, script[1..]);
        ObservedPastIsImmutable(cfg, s.value.world, script[1..]);
        var r := Run(cfg, s.value.world, script[1..]);
        if r.Ok? { PastSameTrans(w, s.value.world, r.value.world); }
      }
    }
  }

  lemma FreshTimeline(createdAt: int, cash: real)
    ensures TimelineOk(Fresh(createdAt, cash))
  {
  }
}
