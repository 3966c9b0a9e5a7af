/** Where the simulator falls short of what its documentation says, each with the exact guard or a concrete script. */
module SimulatorLimits {
  import opened Common
  import opened TradingSession
  import opened SimulatorModel
  import opened SimulatorCommands
  import opened SimulatorOrders
  import opened SimulatorPolling
  import opened SimulatorTimeline

  // ---- a quote at the very instant of the last read ----

  lemma {:induction false} BisectAll(instants: seq<int>, at: int)
    requires forall i :: 0 <= i < |instants| ==> instants[i] <= at
    ensures BisectRight(instants, at) == |instants|
  {
    if instants != [] { BisectAll(instants[1..], at); }
  }

  /** An accepted quote changes the instant already read exactly when it is scripted for that very instant, which the
      guard lets through although the module's documentation says it is refused. */
  lemma QuoteChangesTheReadInstant(w: World, k: Instrument, q: Quote, allowCrossed: bool)
    requires QuotesRising(w.core.quotes) && w.materializedAt.Some? && QuoteAccepted(w, k, q, allowCrossed)
    ensures var read := w.materializedAt.value;
            QuoteAt(SeriesOf(WithQuote(w.core, k, q).quotes, k), read) != QuoteAt(SeriesOf(w.core.quotes, k), read)
            <==> q.at == read
  {
    var read, series := w.materializedAt.value, SeriesOf(w.core.quotes, k);
    if q.at > read {
      QuoteAtAppend(series, q, read);
    } else {
      assert forall i :: 0 <= i < |series| ==> series[i].at < q.at;
      BisectAll(QuoteTimes(series), read);
      BisectAll(QuoteTimes(series + [q]), read);
    }
  }

  // ---- a fee that posts before its fill ----

  /** With a negative delay the fill is lost: once its own fee has posted, cash and holdings at every instant from the
      fill on are those of before the fill, less the fee. */
  lemma EarlyFeeLosesTheFill(history: seq<State>, o: Order, at: int, qty: real, price: real, feeAt: int, fee: real)
    requires history != [] && HistoryRising(history) && LastAt(history) <= feeAt < at
    requires BookFill(history, o, at, qty, price).Ok?
    ensures var filled := BookFill(history, o, at, qty, price).value;
            && filled != [] && BookFee(filled, feeAt, -fee, None).Ok?
            && var after := BookFee(filled, feeAt, -fee, None).value;
               && after != []
               && forall u :: u >= at ==> StateAt(after, u) == LessFee(history, feeAt, fee)
  {
    hide HoldingsAfterFill;
    var filled := BookFill(history, o, at, qty, price).value;
    RecordRises(history, filled[|filled| - 1]);
    RecordKeepsPast(history, filled[|filled| - 1], feeAt);
    var after := BookFee(filled, feeAt, -fee, None).value;
    forall u | u >= at ensures StateAt(after, u) == LessFee(history, feeAt, fee) {
      BisectAll(StateTimes(after), u);
    }
  }

  function LessFee(history: seq<State>, at: int, fee: real): State
    requires history != []
  {
    State(at, StateAt(history, at).cash - fee, StateAt(history, at).holdings)
  }

  /** The fee of an option purchase. */
  function OptionFee(cfg: Config, o: Order, scripted: real): real
    requires cfg.fees.Some?
  {
    OccFee(cfg.fees.value.rates, scripted + o.overfill)
  }

  /** What a read then shows, whenever it comes: an option purchase filled, and an account that only paid the fee. */
  lemma {:induction false} EarlyFeeLosesTheRead(cfg: Config, c: Core, at: int, e: Event, scripted: real, price: real,
                                                now: int)
    requires c.queue == [Timed(at, e)] && e.Fill? && e.orderId < |c.orders| && at <= now && cfg.fees.Some?
    requires var o := c.orders[e.orderId];
             && !IsTerminal(o.status) && o.instrument.assetClass == OptionContract && o.side == Buy
             && PlanFill(c.quotes, o, at, e) == Take(scripted, price) && OptionFee(cfg, o, scripted) > 0.0
    requires var feeAt := at + cfg.fees.value.posting.occDelay;
             c.history != [] && HistoryRising(c.history) && LastAt(c.history) <= feeAt < at
    ensures var r := Drain(cfg, c, now);
            var o, feeAt := c.orders[e.orderId], at + cfg.fees.value.posting.occDelay;
            && r.Ok? && r.value.orders == c.orders[e.orderId := WithFill(o, at, scripted, price)]
            && forall u :: u >= at ==>
                 StateAt(r.value.history, u) == LessFee(c.history, feeAt, OptionFee(cfg, o, scripted))
  {
    hide StateAt, HoldingsAfterFill, WithFill, HistoryRising, OccFee;
    var o, id := c.orders[e.orderId], e.orderId;
    var feeAt, fee := at + cfg.fees.value.posting.occDelay, OptionFee(cfg, o, scripted);
    var done, qty := WithFill(o, at, scripted, price), scripted + o.overfill;
    BoughtOption(o, at, scripted, price);
    var booked := BookFill(c.history, done, at, qty, price);
    EarlyFeeLosesTheFill(c.history, done, at, qty, price, feeAt, fee);
    var row := FeeRow(Some(c.draws), -fee, None);
    var filled := Executed(cfg, Popped(c), id, at, scripted, price).(history := booked.value,
                                                                     queue := [Timed(feeAt, PostRow(row))]);
    OptionExecutes(cfg, Popped(c), id, at, scripted, price);
    assert Apply(cfg, Popped(c), at, e) == Ok(filled);
    var posted := SimulatorModel.Charged(Popped(filled), feeAt, SingleFeeRow(row), -fee, None).value;
    assert Popped(filled).queue == [] && Apply(cfg, Popped(filled), feeAt, PostRow(row)) == Ok(posted);
    hide Apply;
    assert Drain(cfg, posted, now) == Ok(posted);
    assert Drain(cfg, filled, now) == Drain(cfg, posted, now);
  }

  lemma BoughtOption(o: Order, at: int, scripted: real, price: real)
    ensures var p := WithFill(o, at, scripted, price); p.instrument == o.instrument && p.side == o.side
  {
  }

  /** An option purchase queues its own fee and charges no batch. */
  lemma OptionExecutes(cfg: Config, c: Core, id: nat, at: int, scripted: real, price: real)
    requires c.history != [] && c.queue == [] && id < |c.orders| && cfg.fees.Some?
    requires c.orders[id].instrument.assetClass == OptionContract && c.orders[id].side == Buy
    requires OptionFee(cfg, c.orders[id], scripted) > 0.0
    ensures var fee, feeAt := OptionFee(cfg, c.orders[id], scripted), at + cfg.fees.value.posting.occDelay;
            var executed := Executed(cfg, c, id, at, scripted, price);
            var booked := BookFill(c.history, executed.orders[id], at, scripted + c.orders[id].overfill, price);
            && booked.Ok?
            && Execute(cfg, c, id, at, scripted, price)
               == Ok(executed.(history := booked.value,
                               queue := [Timed(feeAt, PostRow(FeeRow(Some(c.draws), -fee, None)))]))
  {
    hide StateAt, HoldingsAfterFill, WithFill, OccFee, Record;
    BoughtOption(c.orders[id], at, scripted, price);
    var executed := Executed(cfg, c, id, at, scripted, price);
    var o, qty := executed.orders[id], scripted + c.orders[id].overfill;
    var paid := executed.(history := BookFill(c.history, o, at, qty, price).value);
    var own := OwnFee(cfg, o, at, qty, price, c.draws);
    var row := FeeRow(Some(c.draws), -OccFee(cfg.fees.value.rates, qty), None);
    assert own == Some(Timed(at + cfg.fees.value.posting.occDelay, PostRow(row)));
    assert Charges(cfg, o, at, qty, price) == [];
    assert Push(paid, own.value.at, own.value.event) == paid.(queue := [own.value]);
  }

  // ---- before the account existed ----

  lemma {:induction false} BisectNone(instants: seq<int>, at: int)
    requires instants == [] || at < instants[0]
    ensures BisectRight(instants, at) == 0
  {
  }

  /** The first recorded state answers for every earlier instant. */
  lemma BeforeTheStart(history: seq<State>, u: int)
    requires history != [] && u < history[0].at
    ensures StateAt(history, u) == history[0]
  {
    assert StateTimes(history)[0] == history[0].at;
    BisectNone(StateTimes(history), u);
  }

  /** Recording rewrites the instants before the start exactly when it replaces the only state there is by another. */
  lemma RecordRewritesTheStart(history: seq<State>, s: State, u: int)
    requires history != [] && HistoryRising(history) && LastAt(history) <= s.at && u < history[0].at
    ensures StateAt(Record(history, s), u) != StateAt(history, u)
            <==> |history| == 1 && s.at == history[0].at && s != history[0]
  {
    BeforeTheStart(history, u);
    BeforeTheStart(Record(history, s), u);
  }

  /** A transfer, accepted once everything due has happened, rewrites the instants before the start exactly when it
      arrives at the opening instant and nothing has been recorded since. */
  lemma {:induction false} SeedRewritesTheStart(cfg: Config, w: World, floor: int, now: int, cmd: Command, u: int)
    requires ValidConfig(cfg) && DelaysOk(cfg) && WorldOk(cfg, w) && InOrder(w.core, floor) && floor <= now
    requires cmd.SeedPosition? && Materializes(cmd) && Drain(cfg, w.core, now).Ok?
    requires var due := Drain(cfg, w.core, now).value;
             cmd.symbol !in StateAt(due.history, now).holdings && u < due.history[0].at
    ensures var due, r := Drain(cfg, w.core, now).value, Step(cfg, w, now, cmd);
            && r.Ok? && r.value.answer == Seeded(cmd.symbol, cmd.qty) && r.value.world.core.history != []
            && (StateAt(r.value.world.core.history, u) != StateAt(due.history, u)
                <==> |due.history| == 1 && due.history[0].at == now)
  {
    hide StateAt, WorldOk, CheckInvariants, Drain;
    assert w.core.history != [];
    MaterializeOk(cfg, w, now);
    DrainInOrder(cfg, w.core, floor, now);
    var before := Drain(cfg, w.core, now).value.history;
    var held := StateAt(before, now);
    var s := State(now, held.cash,
      held.holdings[cmd.symbol := Holding(cmd.assetClass, cmd.qty, cmd.avgEntry, cmd.multiplier)]);
    RecordRewritesTheStart(before, s, u);
    if |before| == 1 && before[0].at == now {
      StateAtEnd(before, now);
      assert cmd.symbol in s.holdings && cmd.symbol !in before[0].holdings;
    }
  }

  /** One such script: a transfer at the opening instant rewrites an instant before it, although a read came first. */
  lemma EarlierThanTheStartIsRewritten(cfg: Config, cash: real)
    ensures var seed := SeedPosition("T", Equity, 1.0, 1.0, 1.0);
            var before := Fresh(0, cash).(materializedAt := Some(0));
            var after := Step(cfg, before, 0, seed);
            && Step(cfg, Fresh(0, cash), 0, Read).Ok? && Step(cfg, Fresh(0, cash), 0, Read).value.world == before
            && after.Ok? && StateAt(after.value.world.core.history, -1) != StateAt(before.core.history, -1)
  {
    var seed := SeedPosition("T", Equity, 1.0, 1.0, 1.0);
    var before := Fresh(0, cash).(materializedAt := Some(0));
    var after := Step(cfg, before, 0, seed);
    assert after.value.world.core.history[0].holdings["T"].qty == 1.0;
    assert "T" !in before.core.history[0].holdings;
  }

  // ---- two instruments quoted at one instant ----

  const PLAIN := Config(Session([], true), None, (at: int) => at, (k: Instrument) => 1.0, Expired, 1, 0, false, 422)

  const LEFT := Instrument("L", Crypto)
  const RIGHT := Instrument("R", Crypto)

  function LimitBuy(client: string, k: Instrument): Command {
    Place(Request(client, k, Buy, 1.0, true, Some(9.0), false, false))
  }

  function AskNine(k: Instrument): Command {
    SetQuote(k, Quote(5, 9.0, 9.0), false)
  }

  /** Two resting limit orders, then both instruments quoted for the same later instant, the second order's first. */
  function TiedScript(polled: bool): seq<Call> {
    [Call(0, LimitBuy("l", LEFT)), Call(0, LimitBuy("r", RIGHT))]
    + (if polled then [Call(1, Read)] else [])
    + [Call(1, AskNine(RIGHT)), Call(1, AskNine(LEFT))]
  }

  function Resting(id: nat, k: Instrument): Order {
    Order(Given(if id == 0 then "l" else "r"), k, Buy, 1.0, Some(9.0), 1.0, 0, New, Some(0), 0, None, None, None,
          0.0, 0.0, None, 0, false, 0.0, 0.0)
  }

  function Market(id: nat): Timed { Timed(1, Fill(id, None, None)) }

  function Late(id: nat): Timed { Timed(5, Fill(id, None, None)) }

  /** Both orders accepted and nothing applied yet. */
  function BothPlaced(cash: real): World {
    World(Core([State(0, cash, map[])], map[], [Market(0), Market(1)], [Resting(0, LEFT), Resting(1, RIGHT)],
               map[], [], map[], 2),
          map[Given("l") := 0, Given("r") := 1], map[], 0.0, Some(0), [Check(0.0, None), Check(0.0, None)])
  }

  function Quoted(): map<Instrument, seq<Quote>> {
    map[RIGHT := [Quote(5, 9.0, 9.0)], LEFT := [Quote(5, 9.0, 9.0)]]
  }

  lemma PlacedLeft(cash: real)
    ensures Step(PLAIN, Fresh(0, cash), 0, LimitBuy("l", LEFT)) == Ok(Stepped(
      World(Core([State(0, cash, map[])], map[], [Market(0)], [Resting(0, LEFT)], map[], [], map[], 1),
            map[Given("l") := 0], map[], 0.0, Some(0), [Check(0.0, None)]), Placed(0)))
  {
    var w := Fresh(0, cash).(materializedAt := Some(0));
    assert Drain(PLAIN, Fresh(0, cash).core, 0) == Ok(w.core);
    assert Checked(w.core, []) == [];
    assert Materialize(PLAIN, Fresh(0, cash), 0) == Ok(w);
    var r := LimitBuy("l", LEFT).request;
    assert RefusalCode(PLAIN, w, 0, r).None?;
    assert ScriptFor(w, r.client) == Script([], Filled);
    assert NewOrder(PLAIN, w, 0, r, true) == Resting(0, LEFT);
    assert Insert([], 1, Market(0).event) == [Market(0)];
    assert Booked(PLAIN, w, 0, r, true, 0)
      == Core([State(0, cash, map[])], map[], [Market(0)], [Resting(0, LEFT)], map[], [], map[], 1);
    assert w.scripts - {"l"} == map[];
    assert w.clients[Given("l") := 0] == map[Given("l") := 0];
    assert w.checks + [Check(0.0, None)] == [Check(0.0, None)];
    assert PlaceOrder(PLAIN, w, 0, r) == Stepped(Accept(PLAIN, w, 0, r, true, 0), Placed(0));
  }

  lemma PlacedBoth(cash: real)
    ensures Step(PLAIN, Step(PLAIN, Fresh(0, cash), 0, LimitBuy("l", LEFT)).value.world, 0, LimitBuy("r", RIGHT))
            == Ok(Stepped(BothPlaced(cash), Placed(1)))
  {
    PlacedLeft(cash);
    var w := Step(PLAIN, Fresh(0, cash), 0, LimitBuy("l", LEFT)).value.world;
    assert Drain(PLAIN, w.core, 0) == Ok(w.core);
    assert Checked(w.core, w.checks) == w.checks;
    assert Materialize(PLAIN, w, 0) == Ok(w);
    var r := LimitBuy("r", RIGHT).request;
    assert RefusalCode(PLAIN, w, 0, r).None?;
    assert ScriptFor(w, r.client) == Script([], Filled);
    assert NewOrder(PLAIN, w, 0, r, true) == Resting(1, RIGHT);
    assert Insert([Market(0)], 1, Market(1).event) == [Market(0)] + Insert([], 1, Market(1).event);
    assert Booked(PLAIN, w, 0, r, true, 0) == BothPlaced(cash).core;
    assert w.scripts - {"r"} == map[];
    assert w.clients[Given("r") := 1] == BothPlaced(cash).clients;
    assert w.checks + [Check(0.0, None)] == BothPlaced(cash).checks;
    assert PlaceOrder(PLAIN, w, 0, r) == Stepped(BothPlaced(cash), Placed(1));
  }

  function Parked(cash: real): World {
    var w := BothPlaced(cash);
    w.(core := w.core.(queue := [],
      parked := map[LEFT := [Waiting(1, Market(0).event)], RIGHT := [Waiting(1, Market(1).event)]]),
       materializedAt := Some(1))
  }

  /** The read at 1 parks both orders, since nothing is quoted yet. */
  lemma ReadParksBoth(cash: real)
    ensures Step(PLAIN, BothPlaced(cash), 1, Read) == Ok(Stepped(Parked(cash), Done))
  {
    var w := BothPlaced(cash);
    var c1 := w.core.(queue := [Market(1)], parked := map[LEFT := [Waiting(1, Market(0).event)]]);
    var c2 := Parked(cash).core;
    assert Popped(w.core).queue == [Market(1)];
    assert [] + [Waiting(1, Market(0).event)] == [Waiting(1, Market(0).event)];
    assert [] + [Waiting(1, Market(1).event)] == [Waiting(1, Market(1).event)];
    assert PlanFill(w.core.quotes, w.core.orders[0], 1, Market(0).event) == Wait;
    assert Rearm(Popped(w.core), LEFT, 1, Market(0).event) == c1;
    assert Apply(PLAIN, Popped(w.core), 1, Market(0).event) == Ok(c1);
    assert Drain(PLAIN, w.core, 1) == Drain(PLAIN, c1, 1);
    assert Popped(c1).queue == [];
    assert PlanFill(c1.quotes, c1.orders[1], 1, Market(1).event) == Wait;
    assert Rearm(Popped(c1), RIGHT, 1, Market(1).event) == c2;
    assert Apply(PLAIN, Popped(c1), 1, Market(1).event) == Ok(c2);
    assert Drain(PLAIN, c1, 1) == Drain(PLAIN, c2, 1) == Ok(c2);
    assert Checked(c2, w.checks) == w.checks;
  }

  /** Quoting right before left re-arms the right order first. */
  lemma QuotesAfterReading(cash: real)
    ensures var w := Configure(Parked(cash), AskNine(RIGHT)).world;
            Configure(w, AskNine(LEFT)).world
            == Parked(cash).(core := BothPlaced(cash).core.(quotes := Quoted(), queue := [Late(1), Late(0)]))
  {
    var c := Parked(cash).core;
    var q := Quote(5, 9.0, 9.0);
    var c1 := WithQuote(c, RIGHT, q);
    assert SeriesOf(c.quotes, RIGHT) + [q] == [q] && SeriesOf(map[RIGHT := [q]], LEFT) + [q] == [q];
    assert Insert([], 5, Market(1).event) == [Late(1)];
    assert c1.queue == [Late(1)] && c1.parked == map[LEFT := [Waiting(1, Market(0).event)]]
      && c1.quotes == map[RIGHT := [q]];
    assert Insert([Late(1)], 5, Market(0).event) == [Late(1)] + Insert([], 5, Market(0).event);
    assert WithQuote(c1, LEFT, q) == BothPlaced(cash).core.(quotes := Quoted(), queue := [Late(1), Late(0)]);
  }

  lemma QuotesWithoutReading(cash: real)
    ensures var w := Configure(BothPlaced(cash), AskNine(RIGHT)).world;
            Configure(w, AskNine(LEFT)).world == BothPlaced(cash).(core := BothPlaced(cash).core.(quotes := Quoted()))
  {
    var c := BothPlaced(cash).core;
    var q := Quote(5, 9.0, 9.0);
    var c1 := WithQuote(c, RIGHT, q);
    assert SeriesOf(c.quotes, RIGHT) + [q] == [q] && SeriesOf(map[RIGHT := [q]], LEFT) + [q] == [q];
    assert c1 == c.(quotes := map[RIGHT := [q]]);
    assert WithQuote(c1, LEFT, q) == c.(quotes := Quoted());
  }

  /** Applied late, a resting order re-arms at the quote. */
  lemma LateRearm(c: Core, id: nat, k: Instrument)
    requires id < |c.orders| && c.orders[id] == Resting(id, k) && c.history != [] && c.quotes == Quoted()
             && (k == LEFT || k == RIGHT)
    ensures Apply(PLAIN, c, 1, Market(id).event) == Ok(c.(queue := Insert(c.queue, 5, Late(id).event)))
  {
    var q := Quote(5, 9.0, 9.0);
    assert Later([q], 1) == [q];
    assert QuoteTimes([q])[0] == 5;
    assert QuoteAt([q], 1).None?;
    assert PlanFill(c.quotes, c.orders[id], 1, Market(id).event) == Wait;
  }

  lemma {:induction false} DrainsInto(c: Core, now: int, next: Core)
    requires c.history != [] && next.history != [] && c.queue != [] && c.queue[0].at <= now
    requires Apply(PLAIN, Popped(c), c.queue[0].at, c.queue[0].event) == Ok(next)
    ensures Drain(PLAIN, c, now) == Drain(PLAIN, next, now)
  {
    hide Apply;
  }

  /** Applied late, the two events re-arm in the order they were placed. */
  lemma AppliedLate(cash: real)
    ensures var c := BothPlaced(cash).core.(quotes := Quoted());
            Drain(PLAIN, c, 5) == Drain(PLAIN, c.(queue := [Late(0), Late(1)]), 5)
  {
    var c := BothPlaced(cash).core.(quotes := Quoted());
    var c1 := c.(queue := [Market(1), Late(0)]);
    var c2 := c.(queue := [Late(0), Late(1)]);
    assert Popped(c).queue == [Market(1)];
    assert Insert([Market(1)], 5, Late(0).event) == [Market(1)] + Insert([], 5, Late(0).event);
    LateRearm(Popped(c), 0, LEFT);
    assert Popped(c1).queue == [Late(0)];
    assert Insert([Late(0)], 5, Late(1).event) == [Late(0)] + Insert([], 5, Late(1).event);
    LateRearm(Popped(c1), 1, RIGHT);
    assert Insert([], 5, Late(0).event) == [Late(0)] && Insert([], 5, Late(1).event) == [Late(1)];
    assert Popped(c).(queue := Insert([Market(1)], 5, Late(0).event)) == c1;
    assert Popped(c1).(queue := Insert([Late(0)], 5, Late(1).event)) == c2;
    hide Apply, Insert, Drain;
    DrainsInto(c, 5, c1);
    DrainsInto(c1, 5, c2);
  }

  predicate FilledFirst(c: Core, id: nat) {
    c.activities != [] && c.activities[0].row.FillRow? && c.activities[0].row.orderId == id
  }

  /** One resting order meets its quote. */
  lemma RestingFills(c: Core, id: nat, k: Instrument)
    requires id < |c.orders| && c.orders[id] == Resting(id, k) && c.history != [] && c.quotes == Quoted()
             && (k == LEFT || k == RIGHT)
    ensures var r := Apply(PLAIN, c, 5, Late(id).event);
            && r.Ok? && r.value.history != [] && r.value.quotes == c.quotes && r.value.queue == c.queue
            && r.value.orders == c.orders[id := r.value.orders[id]] && |r.value.orders| == |c.orders|
            && r.value.activities
               == c.activities + [Activity(c.draws, 5, 5, FillRow(id, Buy, k.symbol, 1.0, 9.0, 1.0, 0.0, Filled))]
  {
    hide HoldingsAfterFill;
    var q := Quote(5, 9.0, 9.0);
    assert QuoteTimes([q])[0] == 5;
    assert BisectRight(QuoteTimes([q]), 5) == 1;
    assert QuoteAt([q], 5) == Some(q);
    assert PlanFill(c.quotes, c.orders[id], 5, Late(id).event) == Take(1.0, 9.0);
    assert WithFill(c.orders[id], 5, 1.0, 9.0).status == Filled;
  }

  /** With both fills due at 5, the one queued first is booked first. */
  lemma FirstQueuedFillsFirst(cash: real, id: nat)
    requires id < 2
    ensures var r := Drain(PLAIN, BothPlaced(cash).core.(quotes := Quoted(), queue := [Late(id), Late(1 - id)]), 5);
            r.Ok? && FilledFirst(r.value, id)
  {
    hide Apply;
    var k, other := if id == 0 then LEFT else RIGHT, if id == 0 then RIGHT else LEFT;
    var c := BothPlaced(cash).core.(quotes := Quoted(), queue := [Late(id), Late(1 - id)]);
    assert Popped(c).queue == [Late(1 - id)];
    RestingFills(Popped(c), id, k);
    var c1 := Apply(PLAIN, Popped(c), 5, Late(id).event).value;
    assert Popped(c1).queue == [];
    RestingFills(Popped(c1), 1 - id, other);
    var c2 := Apply(PLAIN, Popped(c1), 5, Late(1 - id).event).value;
    assert Drain(PLAIN, c1, 5) == Drain(PLAIN, c2, 5);
  }

  lemma {:induction false} TwoPlaced(cash: real, rest: seq<Call>)
    ensures var r := Run(PLAIN, Fresh(0, cash), [Call(0, LimitBuy("l", LEFT)), Call(0, LimitBuy("r", RIGHT))] + rest);
            var s := Run(PLAIN, BothPlaced(cash), rest);
            (s.Ok? ==> r.Ok? && r.value.world == s.value.world)
  {
    PlacedLeft(cash);
    PlacedBoth(cash);
    hide Step;
    var first, second := Call(0, LimitBuy("l", LEFT)), Call(0, LimitBuy("r", RIGHT));
    var all := [first, second] + rest;
    assert all[0] == first && all[1..] == [second] + rest && ([second] + rest)[1..] == rest;
  }

  lemma {:induction false} TwoQuoted(w: World)
    requires w.core.history != []
    ensures var r := Run(PLAIN, w, [Call(1, AskNine(RIGHT)), Call(1, AskNine(LEFT))]);
            r.Ok? && r.value.world == Configure(Configure(w, AskNine(RIGHT)).world, AskNine(LEFT)).world
  {
    assert Configure(w, AskNine(RIGHT)).world.core.history != [];
    hide Configure;
    var quotes := [Call(1, AskNine(RIGHT)), Call(1, AskNine(LEFT))];
    assert quotes[1..] == [quotes[1]] && [quotes[1]][1..] == [];
    var one := Configure(w, AskNine(RIGHT)).world;
    StepKeepsHistory(PLAIN, one, 1, AskNine(LEFT));
    var two := Configure(one, AskNine(LEFT)).world;
    assert Run(PLAIN, two, []).value.world == two;
    assert Step(PLAIN, one, 1, AskNine(LEFT)).Ok? && Step(PLAIN, one, 1, AskNine(LEFT)).value.world == two;
    hide Step;
    assert Run(PLAIN, one, [quotes[1]]).Ok? && Run(PLAIN, one, [quotes[1]]).value.world == two;
  }

  lemma PolledRun(cash: real)
    ensures var r := Run(PLAIN, Fresh(0, cash), TiedScript(true));
            r.Ok? && r.value.world.core == BothPlaced(cash).core.(quotes := Quoted(), queue := [Late(1), Late(0)])
  {
    var quotes := [Call(1, AskNine(RIGHT)), Call(1, AskNine(LEFT))];
    var rest := [Call(1, Read)] + quotes;
    assert TiedScript(true) == [Call(0, LimitBuy("l", LEFT)), Call(0, LimitBuy("r", RIGHT))] + rest;
    TwoPlaced(cash, rest);
    ReadParksBoth(cash);
    QuotesAfterReading(cash);
    TwoQuoted(Parked(cash));
    hide Step, Configure;
    assert rest[0] == Call(1, Read) && rest[1..] == quotes;
  }

  lemma UnpolledRun(cash: real)
    ensures var r := Run(PLAIN, Fresh(0, cash), TiedScript(false));
            r.Ok? && r.value.world.core == BothPlaced(cash).core.(quotes := Quoted())
  {
    var quotes := [Call(1, AskNine(RIGHT)), Call(1, AskNine(LEFT))];
    assert TiedScript(false) == [Call(0, LimitBuy("l", LEFT)), Call(0, LimitBuy("r", RIGHT))] + quotes;
    TwoPlaced(cash, quotes);
    QuotesWithoutReading(cash);
    TwoQuoted(BothPlaced(cash));
  }

  lemma OnlyTheReadDiffers()
    ensures WithoutReads(TiedScript(true)) == TiedScript(false)
  {
    var t, f := TiedScript(true), TiedScript(false);
    assert |t| == 5 && t[4..][1..] == [];
    assert t[3..][1..] == t[4..] && t[2..][1..] == t[3..] && t[1..][1..] == t[2..];
    assert WithoutReads(t[4..]) == [t[4]];
    assert WithoutReads(t[3..]) == [t[3], t[4]];
    assert WithoutReads(t[2..]) == [t[3], t[4]];
    assert WithoutReads(t[1..]) == [t[1], t[3], t[4]];
    assert WithoutReads(t) == [t[0], t[1], t[3], t[4]];
  }

  lemma {:induction false} Observing(cash: real, script: seq<Call>, core: Core, id: nat)
    requires core.history != []
    requires Run(PLAIN, Fresh(0, cash), script).Ok? && Run(PLAIN, Fresh(0, cash), script).value.world.core == core
    requires Drain(PLAIN, core, 5).Ok? && FilledFirst(Drain(PLAIN, core, 5).value, id)
    ensures var r := Observe(PLAIN, Fresh(0, cash), script, 5); r.Ok? && FilledFirst(r.value.0, id)
  {
    hide Run, Drain, FilledFirst;
  }

  /** One extra read decides which of two orders fills first, so polling is not harmless when two instruments are
      quoted for the same instant. */
  lemma {:induction false} TiedQuotesNotPollIndependent(cash: real, script: seq<Call>)
    requires script == TiedScript(true)
    ensures var polled := Observe(PLAIN, Fresh(0, cash), script, 5);
            var unpolled := Observe(PLAIN, Fresh(0, cash), WithoutReads(script), 5);
            polled.Ok? && unpolled.Ok? && FilledFirst(polled.value.0, 1) && FilledFirst(unpolled.value.0, 0)
  {
    hide Run, Drain, WithoutReads, TiedScript, Observe, FilledFirst;
    OnlyTheReadDiffers();
    PolledRun(cash);
    UnpolledRun(cash);
    AppliedLate(cash);
    FirstQueuedFillsFirst(cash, 0);
    FirstQueuedFillsFirst(cash, 1);
    Observing(cash, script, BothPlaced(cash).core.(quotes := Quoted(), queue := [Late(1), Late(0)]), 1);
    Observing(cash, WithoutReads(script), BothPlaced(cash).core.(quotes := Quoted()), 0);
  }
}
