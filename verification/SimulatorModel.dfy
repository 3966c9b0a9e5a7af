/** The in-memory exchange on values: what each part of one event does to the timeline.
    The class in SimulatedBroker.dfy carries the same steps out in place and is proved equal to these
    functions; the whole-run properties are proved about these functions.

    Every queued event carries an ever-increasing number, so taking the smallest (instant, number) pair
    is taking the head of a list ordered by instant in which a new event goes behind its equals. */
module SimulatorModel {
  import opened Common
  import opened TradingSession

  // ---- market and account data ----

  datatype AssetClass = Equity | OptionContract | Crypto

  datatype Side = Buy | Sell

  datatype Instrument = Instrument(symbol: string, assetClass: AssetClass)

  datatype Quote = Quote(at: int, bid: real, ask: real)

  datatype Holding = Holding(assetClass: AssetClass, qty: real, avgEntry: real, multiplier: real)

  datatype State = State(at: int, cash: real, holdings: map<string, Holding>)

  // ---- orders ----

  datatype Status = New | Accepted | PartiallyFilled | Filled | Canceled | Expired | Rejected

  predicate IsOpenStatus(s: Status) { s == New || s == Accepted || s == PartiallyFilled }

  predicate IsTerminal(s: Status) { s == Filled || s == Canceled || s == Expired || s == Rejected }

  /** A client order id, or the one the broker generates when none is sent. */
  datatype ClientId = Given(text: string) | Generated(draw: nat)

  datatype Order = Order(
    client: ClientId, instrument: Instrument, side: Side, qty: real, limit: Option<real>, multiplier: real,
    createdAt: int, status: Status, submittedAt: Option<int>, updatedAt: int, filledAt: Option<int>,
    canceledAt: Option<int>, expiredAt: Option<int>, filledQty: real, notional: real, avgPrice: Option<real>,
    fillEvents: nat, oversell: bool, overfill: real, overfilled: real)
  {
    function Remaining(): real { Max(qty - filledQty, 0.0) }
  }

  // ---- events ----

  datatype BatchKind = Reg | Taf | Cat | Orf

  datatype BatchKey = BatchKey(kind: BatchKind, option: bool, tradeDate: int)

  /** A fee posted on its own: OCC after an option fill, CFEE in the coin or in cash after a crypto fill. */
  datatype FeeRow = FeeRow(executionId: Option<nat>, cashDelta: real, coinDelta: Option<(string, real)>)

  datatype Event =
    | Start(orderId: nat)
    | Fill(orderId: nat, qty: Option<real>, price: Option<real>)
    | Terminal(orderId: nat, status: Status)
    | Expire(orderId: nat)
    | PostBatch(key: BatchKey)
    | PostRow(row: FeeRow)

  datatype Timed = Timed(at: int, event: Event)

  /** A limit fill waiting for the instrument's next quote, and since when. */
  datatype Waiting = Waiting(since: int, event: Event)

  datatype Batch = Batch(createdAt: int, amount: real, proceeds: real, units: real, trades: nat, posted: bool)

  datatype Row =
    | FillRow(orderId: nat, side: Side, symbol: string, qty: real, price: real, cumQty: real, leaves: real,
              orderStatus: Status)
    | BatchRow(key: BatchKey, netAmount: real)
    | SingleFeeRow(row: FeeRow)

  /** One broker activity. `id` is the number of the draw its identity came from. */
  datatype Activity = Activity(id: nat, visibleAt: int, sortTime: int, row: Row)

  // ---- configuration ----

  /** `cents` is whichever decimal rounding the scenario names. */
  datatype Rates = Rates(
    regPerDollar: real, tafPerShare: real, tafMaxPerTrade: real, optTafPerContract: real, catPerShare: real,
    orfPerContract: real, occPerContract: real, cryptoRate: real, cents: real -> real)

  /** Batch posting instants are functions of the New York trade date. */
  datatype Posting = Posting(
    equityBatch: int -> int, optionBatch: int -> int, occDelay: int, cfeeAssetDelay: int, cfeeUsdDelay: int)

  datatype Fees = Fees(rates: Rates, posting: Posting)

  datatype Config = Config(
    session: Session, fees: Option<Fees>, tradeDate: int -> int, multiplier: Instrument -> real, dayEnd: Status,
    fillLatency: int, activityLag: int, paperCancelReturns204: bool, duplicateIdCode: int)

  /** What the constructor and the setters enforce. */
  predicate ValidConfig(cfg: Config) {
    && Valid(cfg.session)
    && (cfg.dayEnd == Expired || cfg.dayEnd == Canceled)
    && cfg.fillLatency >= 0
    && cfg.activityLag >= 0
  }

  // ---- the timeline ----

  datatype Core = Core(
    history: seq<State>, quotes: map<Instrument, seq<Quote>>, queue: seq<Timed>, orders: seq<Order>,
    parked: map<Instrument, seq<Waiting>>, activities: seq<Activity>, batches: map<BatchKey, Batch>, draws: nat)

  datatype ScriptError =
    | NoUsableQuote | WorseThanLimit | FillExceedsRemaining | SellExceedsPosition | FeeExceedsPosition
    | FillAfterBatchPosted | NoFeeRates | UnknownOrder | InvariantViolated

  type Outcome = Result<Core, ScriptError>

  // ---- reads ----

  function SeriesOf(quotes: map<Instrument, seq<Quote>>, k: Instrument): seq<Quote> {
    if k in quotes then quotes[k] else []
  }

  function ParkedOn(parked: map<Instrument, seq<Waiting>>, k: Instrument): seq<Waiting> {
    if k in parked then parked[k] else []
  }

  function QuoteTimes(series: seq<Quote>): seq<int> {
    seq(|series|, i requires 0 <= i < |series| => series[i].at)
  }

  /** The latest scripted quote at or before the instant. */
  function QuoteAt(series: seq<Quote>, at: int): Option<Quote> {
    var i := BisectRight(QuoteTimes(series), at);
    if i == 0 then None else Some(series[i - 1])
  }

  predicate Rising(series: seq<Quote>) {
    forall i, j :: 0 <= i < j < |series| ==> series[i].at < series[j].at
  }

  /** What scripting a quote enforces of every series. */
  ghost predicate QuotesRising(quotes: map<Instrument, seq<Quote>>) {
    forall k :: k in quotes ==> Rising(quotes[k])
  }

  /** What a caller gets: nothing exactly when every quote is later, otherwise a scripted quote that is not later and
      that no other quote comes between. */
  ghost predicate IsLatest(series: seq<Quote>, at: int, q: Option<Quote>) {
    && (q.None? <==> forall x :: x in series ==> x.at > at)
    && (q.Some? ==> q.value in series && q.value.at <= at && forall x :: x in series && x.at > q.value.at ==> x.at > at)
  }

  lemma QuoteAtIsTheLatest(series: seq<Quote>, at: int)
    requires Rising(series)
    ensures IsLatest(series, at, QuoteAt(series, at))
    ensures forall q :: IsLatest(series, at, q) ==> q == QuoteAt(series, at)
  {
    var times, i := QuoteTimes(series), BisectRight(QuoteTimes(series), at);
    assert forall k :: 0 <= k < |series| ==> times[k] == series[k].at;
    assert forall k :: i <= k < |series| ==> series[k].at > at;
    assert i > 0 ==> series[i - 1] in series && series[i - 1].at <= at;
    assert i < |series| ==> series[i] in series;
  }

  /** The quotes strictly after the instant. */
  function Later(series: seq<Quote>, at: int): (r: seq<Quote>)
    ensures forall q :: q in r ==> q in series && q.at > at
  {
    if series == [] then []
    else (if series[0].at > at then [series[0]] else []) + Later(series[1..], at)
  }

  function StateTimes(history: seq<State>): seq<int> {
    seq(|history|, i requires 0 <= i < |history| => history[i].at)
  }

  /** The recorded state in force at the instant; the first one for anything earlier. */
  function StateAt(history: seq<State>, at: int): State
    requires history != []
  {
    history[MaxInt(BisectRight(StateTimes(history), at) - 1, 0)]
  }

  function Qty(holdings: map<string, Holding>, symbol: string): real {
    if symbol in holdings then holdings[symbol].qty else 0.0
  }

  // ---- queue and history ----

  /** Behind every event that is not later. */
  function Insert(queue: seq<Timed>, at: int, event: Event): seq<Timed> {
    if queue == [] || at < queue[0].at then [Timed(at, event)] + queue
    else [queue[0]] + Insert(queue[1..], at, event)
  }

  /** Re-arms parked fills at a new quote, in the order they were parked. */
  function Rearmed(queue: seq<Timed>, at: int, waiting: seq<Waiting>): seq<Timed>
    decreases |waiting|
  {
    if waiting == [] then queue
    else Rearmed(Insert(queue, MaxInt(at, waiting[0].since), waiting[0].event), at, waiting[1..])
  }

  function Push(c: Core, at: int, event: Event): Core {
    c.(queue := Insert(c.queue, at, event))
  }

  function Record(history: seq<State>, s: State): seq<State>
    requires history != []
  {
    if s.at == history[|history| - 1].at then history[..|history| - 1] + [s] else history + [s]
  }

  // ---- one event ----

  function Finished(o: Order, status: Status, at: int): Order {
    o.(status := status, updatedAt := at,
       canceledAt := if status == Canceled then Some(at) else o.canceledAt,
       expiredAt := if status == Expired then Some(at) else o.expiredAt)
  }

  predicate Marketable(o: Order, touch: Option<real>)
    requires o.limit.Some?
  {
    touch.Some? && (if o.side == Buy then touch.value <= o.limit.value else touch.value >= o.limit.value)
  }

  predicate WorseThan(o: Order, price: real)
    requires o.limit.Some?
  {
    if o.side == Buy then price > o.limit.value else price < o.limit.value
  }

  function Touch(o: Order, q: Option<Quote>): Option<real> {
    if q.None? then None else Some(if o.side == Buy then q.value.ask else q.value.bid)
  }

  function Traded(notional: real, qty: real, price: real): real {
    notional + qty * price
  }

  function WithFill(o: Order, at: int, scripted: real, price: real): Order {
    var qty := scripted + o.overfill;
    var filled := o.filledQty + qty;
    var status := if filled >= o.qty then Filled else PartiallyFilled;
    o.(overfilled := if o.overfill != 0.0 then o.overfill else o.overfilled, overfill := 0.0,
       filledQty := filled, notional := Traded(o.notional, qty, price),
       avgPrice := if filled != 0.0 then Some(Traded(o.notional, qty, price) / filled) else None,
       status := status, updatedAt := at, filledAt := if status == Filled then Some(at) else o.filledAt,
       fillEvents := o.fillEvents + 1)
  }

  function Signed(side: Side, qty: real): real {
    if side == Buy then qty else -qty
  }

  /** What the fill pays out (or, negative, brings in). */
  function Cost(o: Order, qty: real, price: real): real {
    Signed(o.side, qty) * price * o.multiplier
  }

  /** The average entry price once `added` more is held at `price`. */
  function Blended(before: real, avgEntry: real, added: real, price: real): real
    requires before + added != 0.0
  {
    (before * avgEntry + added * price) / (before + added)
  }

  /** The position after a fill: opened, crossed through zero, added to, reduced, or closed. */
  function HoldingsAfterFill(holdings: map<string, Holding>, o: Order, qty: real, price: real): map<string, Holding> {
    var symbol := o.instrument.symbol;
    var signed := Signed(o.side, qty);
    var before := Qty(holdings, symbol);
    var after := before + signed;
    if after == 0.0 then holdings - {symbol}
    else if symbol !in holdings || (before > 0.0) != (after > 0.0) then
      holdings[symbol := Holding(o.instrument.assetClass, after, price, o.multiplier)]
    else if Abs(after) > Abs(before) then
      holdings[symbol := holdings[symbol].(qty := after,
        avgEntry := Blended(before, holdings[symbol].avgEntry, signed, price))]
    else holdings[symbol := holdings[symbol].(qty := after)]
  }

  function FilledState(s: State, o: Order, at: int, qty: real, price: real): State {
    State(at, s.cash - Cost(o, qty, price), HoldingsAfterFill(s.holdings, o, qty, price))
  }

  /** Cash and holdings move together; `o` is the order as the fill left it. */
  function BookFill(history: seq<State>, o: Order, at: int, qty: real, price: real): Result<seq<State>, ScriptError>
    requires history != []
  {
    var s := StateAt(history, at);
    if o.side == Sell && Qty(s.holdings, o.instrument.symbol) < qty && !o.oversell && o.overfilled == 0.0 then
      Err(SellExceedsPosition)
    else Ok(Record(history, FilledState(s, o, at, qty, price)))
  }

  /** Adds one fill to its (kind, product, trade date) batch, creating the batch and its posting event first. */
  function Accrue(c: Core, at: int, key: BatchKey, postsAt: int, amount: real, proceeds: real, units: real): Outcome {
    var ready := if key in c.batches then c
                  else Push(c.(batches := c.batches[key := Batch(postsAt, 0.0, 0.0, 0.0, 0, false)]), postsAt,
                    PostBatch(key));
    var b := ready.batches[key];
    if b.posted || at >= b.createdAt then Err(FillAfterBatchPosted)
    else Ok(ready.(batches := ready.batches[key := b.(amount := b.amount + amount, proceeds := b.proceeds + proceeds,
                                                        units := b.units + units, trades := b.trades + 1)]))
  }

  function PostsAt(cfg: Config, key: BatchKey): int
    requires cfg.fees.Some?
  {
    var posting := cfg.fees.value.posting;
    if key.option then posting.optionBatch(key.tradeDate) else posting.equityBatch(key.tradeDate)
  }

  /** What one fill owes to one batch: amount, proceeds, units. */
  datatype Charge = Charge(key: BatchKey, amount: real, proceeds: real, units: real)

  function EquityCat(rates: Rates, date: int, qty: real): Charge {
    Charge(BatchKey(Cat, false, date), qty * rates.catPerShare, 0.0, qty)
  }

  function EquityReg(rates: Rates, date: int, qty: real, price: real): Charge {
    Charge(BatchKey(Reg, false, date), qty * price * rates.regPerDollar, qty * price, 0.0)
  }

  function EquityTaf(rates: Rates, date: int, qty: real): Charge {
    Charge(BatchKey(Taf, false, date), Min(qty * rates.tafPerShare, rates.tafMaxPerTrade), 0.0, qty)
  }

  function OptionReg(rates: Rates, date: int, qty: real, price: real, multiplier: real): Charge {
    Charge(BatchKey(Reg, true, date), qty * price * multiplier * rates.regPerDollar, qty * price * multiplier, 0.0)
  }

  function OptionTaf(rates: Rates, date: int, qty: real): Charge {
    Charge(BatchKey(Taf, true, date), qty * rates.optTafPerContract, 0.0, qty)
  }

  function OptionOrf(rates: Rates, date: int, qty: real): Charge {
    Charge(BatchKey(Orf, true, date), qty * rates.orfPerContract, 0.0, qty)
  }

  /** The batched charges of a fill, in the order they accrue. */
  function Charges(cfg: Config, o: Order, at: int, qty: real, price: real): seq<Charge>
    requires cfg.fees.Some?
  {
    ChargesFor(cfg.fees.value.rates, cfg.tradeDate(at), o.instrument.assetClass, o.side, o.multiplier, qty, price)
  }

  function ChargesFor(rates: Rates, date: int, assetClass: AssetClass, side: Side, multiplier: real, qty: real,
                      price: real)
    : seq<Charge>
  {
    match assetClass
    case Equity =>
      [EquityCat(rates, date, qty)]
      + (if side == Sell then [EquityReg(rates, date, qty, price), EquityTaf(rates, date, qty)] else [])
    case OptionContract =>
      if side == Sell then
        [OptionReg(rates, date, qty, price, multiplier), OptionTaf(rates, date, qty), OptionOrf(rates, date, qty)]
      else []
    case Crypto => []
  }

  function AccrueAll(cfg: Config, c: Core, at: int, charges: seq<Charge>): Outcome
    requires cfg.fees.Some?
    decreases |charges|
  {
    if charges == [] then Ok(c)
    else
      var x := charges[0];
      match Accrue(c, at, x.key, PostsAt(cfg, x.key), x.amount, x.proceeds, x.units)
      case Err(e) => Err(e)
      case Ok(next) => AccrueAll(cfg, next, at, charges[1..])
  }

  function Times(x: real, y: real): real { x * y }

  function OccFee(rates: Rates, qty: real): real { rates.cents(Times(qty, rates.occPerContract)) }

  function CoinFee(rates: Rates, qty: real): real { Times(qty, rates.cryptoRate) }

  function CoinSaleFee(rates: Rates, qty: real, price: real): real {
    rates.cents(Times(Times(qty, price), rates.cryptoRate))
  }

  /** The fee a fill posts on its own, if any, and when. */
  function OwnFee(cfg: Config, o: Order, at: int, qty: real, price: real, suffix: nat): (own: Option<Timed>)
    requires cfg.fees.Some?
    ensures own.Some? ==> own.value.event.PostRow?
  {
    var rates, posting := cfg.fees.value.rates, cfg.fees.value.posting;
    match o.instrument.assetClass
    case Equity => None
    case OptionContract =>
      var amount := OccFee(rates, qty);
      if amount > 0.0 then Some(Timed(at + posting.occDelay, PostRow(FeeRow(Some(suffix), -amount, None)))) else None
    case Crypto =>
      if o.side == Buy then
        var coin := CoinFee(rates, qty);
        if coin > 0.0 then
          Some(Timed(at + posting.cfeeAssetDelay, PostRow(FeeRow(None, 0.0, Some((o.instrument.symbol, -coin))))))
        else None
      else
        var amount := CoinSaleFee(rates, qty, price);
        if amount > 0.0 then Some(Timed(at + posting.cfeeUsdDelay, PostRow(FeeRow(None, -amount, None)))) else None
  }

  function AccrueFees(cfg: Config, c: Core, o: Order, at: int, qty: real, price: real, suffix: nat): Outcome {
    if cfg.fees.None? then Ok(c)
    else
      var own := OwnFee(cfg, o, at, qty, price, suffix);
      var queued := if own.Some? then Push(c, own.value.at, own.value.event) else c;
      AccrueAll(cfg, queued, at, Charges(cfg, o, at, qty, price))
  }

  /** A limit fill that is not marketable waits for the next quote. */
  function Rearm(c: Core, k: Instrument, at: int, event: Event): Core {
    var later := Later(SeriesOf(c.quotes, k), at);
    if later != [] then Push(c, later[0].at, event)
    else c.(parked := c.parked[k := ParkedOn(c.parked, k) + [Waiting(at, event)]])
  }

  /** The order book and activity feed after a fill, before cash, holdings and fees move. */
  function Executed(cfg: Config, c: Core, id: nat, at: int, scripted: real, price: real): Core
    requires id < |c.orders|
  {
    var o := c.orders[id];
    var done := WithFill(o, at, scripted, price);
    var row := FillRow(id, o.side, o.instrument.symbol, scripted + o.overfill, price, done.filledQty, done.Remaining(),
                       done.status);
    c.(orders := c.orders[id := done], draws := c.draws + 1,
       activities := c.activities + [Activity(c.draws, at + cfg.activityLag, at, row)])
  }

  /** What a fill event does to its order now: waits for a quote, breaks the script, or executes. */
  datatype Plan = Wait | Refuse(error: ScriptError) | Take(scripted: real, price: real)

  function PlanFill(quotes: map<Instrument, seq<Quote>>, o: Order, at: int, event: Event): (plan: Plan)
    requires event.Fill?
    ensures plan.Take? ==> 0.0 < plan.scripted <= o.Remaining() && plan.price > 0.0
  {
    var touch := Touch(o, QuoteAt(SeriesOf(quotes, o.instrument), at));
    var price := if event.price.Some? then event.price else touch;
    var scripted := if event.qty.Some? then event.qty.value else o.Remaining();
    if o.limit.Some? && !Marketable(o, touch) then Wait
    else if o.limit.Some? && price.Some? && WorseThan(o, price.value) then Refuse(WorseThanLimit)
    else if price.None? || price.value <= 0.0 then Refuse(NoUsableQuote)
    else if scripted <= 0.0 || scripted > o.Remaining() then Refuse(FillExceedsRemaining)
    else Take(scripted, price.value)
  }

  /** Executes against the order, the feed, cash, holdings and fees, in that order. */
  function Execute(cfg: Config, c: Core, id: nat, at: int, scripted: real, price: real): Outcome
    requires c.history != [] && id < |c.orders|
  {
    var qty := scripted + c.orders[id].overfill;
    var executed := Executed(cfg, c, id, at, scripted, price);
    match BookFill(c.history, executed.orders[id], at, qty, price)
    case Err(e) => Err(e)
    case Ok(history) => AccrueFees(cfg, executed.(history := history), executed.orders[id], at, qty, price, c.draws)
  }

  function ApplyFill(cfg: Config, c: Core, at: int, event: Event): Outcome
    requires c.history != [] && event.Fill? && event.orderId < |c.orders|
  {
    var o := c.orders[event.orderId];
    match PlanFill(c.quotes, o, at, event)
    case Wait => Ok(Rearm(c, o.instrument, at, event))
    case Refuse(error) => Err(error)
    case Take(scripted, price) => Execute(cfg, c, event.orderId, at, scripted, price)
  }

  function BookFee(history: seq<State>, at: int, cashDelta: real, coinDelta: Option<(string, real)>)
    : Result<seq<State>, ScriptError>
    requires history != []
  {
    var s := StateAt(history, at);
    if coinDelta.None? then Ok(Record(history, State(at, s.cash + cashDelta, s.holdings)))
    else
      var (symbol, delta) := coinDelta.value;
      if symbol !in s.holdings || s.holdings[symbol].qty + delta < 0.0 then Err(FeeExceedsPosition)
      else
        var left := s.holdings[symbol].qty + delta;
        var holdings := if left == 0.0 then s.holdings - {symbol}
                        else s.holdings[symbol := s.holdings[symbol].(qty := left)];
        Ok(Record(history, State(at, s.cash + cashDelta, holdings)))
  }

  /** A fee activity and its booking. */
  function Charged(c: Core, at: int, row: Row, cashDelta: real, coinDelta: Option<(string, real)>): Outcome
    requires c.history != []
  {
    match BookFee(c.history, at, cashDelta, coinDelta)
    case Err(e) => Err(e)
    case Ok(history) => Ok(c.(history := history, draws := c.draws + 1,
                              activities := c.activities + [Activity(c.draws, at, at, row)]))
  }

  function ApplyFee(cfg: Config, c: Core, at: int, event: Event): Outcome
    requires c.history != [] && (event.PostBatch? || event.PostRow?)
  {
    if cfg.fees.None? then Err(NoFeeRates)
    else if event.PostRow? then Charged(c, at, SingleFeeRow(event.row), event.row.cashDelta, event.row.coinDelta)
    else if event.key !in c.batches then Err(NoFeeRates)
    else
      var b := c.batches[event.key];
      var posted := c.(batches := c.batches[event.key := b.(posted := true)]);
      var amount := cfg.fees.value.rates.cents(b.amount);
      if amount <= 0.0 then Ok(posted) else Charged(posted, at, BatchRow(event.key, -amount), -amount, None)
  }

  /** One due event. Nothing changes a terminal order: its later events lapse. */
  function Apply(cfg: Config, c: Core, at: int, event: Event): Outcome
    requires c.history != []
  {
    if event.PostBatch? || event.PostRow? then ApplyFee(cfg, c, at, event)
    else if event.orderId >= |c.orders| then Err(UnknownOrder)
    else
      var o := c.orders[event.orderId];
      if IsTerminal(o.status) then Ok(c)
      else match event
        case Start(id) => Ok(c.(orders := c.orders[id := o.(status := New, submittedAt := Some(at), updatedAt := at)]))
        case Terminal(id, status) => Ok(c.(orders := c.orders[id := Finished(o, status, at)]))
        case Expire(id) => Ok(c.(orders := c.orders[id := Finished(o, cfg.dayEnd, at)]))
        case Fill(_, _, _) => ApplyFill(cfg, c, at, event)
  }

  function Popped(c: Core): Core
    requires c.queue != []
  {
    c.(queue := c.queue[1..])
  }

  // ---- draining the queue terminates ----

  function Instruments(orders: seq<Order>): seq<Instrument> {
    seq(|orders|, i requires 0 <= i < |orders| => orders[i].instrument)
  }

  /** A fill can be re-armed once per later quote, and otherwise queues at most four fee postings;
      every other event queues nothing. */
  function EventWeight(quotes: map<Instrument, seq<Quote>>, instruments: seq<Instrument>, t: Timed): nat {
    if t.event.Fill? && t.event.orderId < |instruments|
    then 5 + |Later(SeriesOf(quotes, instruments[t.event.orderId]), t.at)|
    else 1
  }

  function QueueWeight(quotes: map<Instrument, seq<Quote>>, instruments: seq<Instrument>, queue: seq<Timed>): nat {
    if queue == [] then 0
    else EventWeight(quotes, instruments, queue[0]) + QueueWeight(quotes, instruments, queue[1..])
  }

  function Weight(c: Core): nat {
    QueueWeight(c.quotes, Instruments(c.orders), c.queue)
  }

  lemma {:induction false} InsertWeight(quotes: map<Instrument, seq<Quote>>, instruments: seq<Instrument>,
                                        queue: seq<Timed>, at: int, event: Event)
    ensures QueueWeight(quotes, instruments, Insert(queue, at, event))
         == QueueWeight(quotes, instruments, queue) + EventWeight(quotes, instruments, Timed(at, event))
  {
    if queue == [] || at < queue[0].at {
      assert ([Timed(at, event)] + queue)[1..] == queue;
    } else {
      InsertWeight(quotes, instruments, queue[1..], at, event);
      assert ([queue[0]] + Insert(queue[1..], at, event))[1..] == Insert(queue[1..], at, event);
    }
  }

  /** Passing a later quote leaves strictly fewer quotes ahead. */
  lemma {:induction false} LaterShrinks(series: seq<Quote>, at: int, next: int)
    requires at <= next
    ensures |Later(series, next)| <= |Later(series, at)|
    ensures (exists q :: q in series && at < q.at <= next) ==> |Later(series, next)| < |Later(series, at)|
  {
    if series != [] {
      LaterShrinks(series[1..], at, next);
      if q :| q in series && at < q.at <= next {
        assert q == series[0] || q in series[1..];
      }
    }
  }

  lemma {:induction false} AccrueAllWeight(cfg: Config, c: Core, at: int, charges: seq<Charge>)
    requires cfg.fees.Some?
    ensures var r := AccrueAll(cfg, c, at, charges);
            r.Ok? ==> r.value == c.(queue := r.value.queue, batches := r.value.batches)
                      && Weight(r.value) <= Weight(c) + |charges|
    decreases |charges|
  {
    if charges != [] {
      var x := charges[0];
      var r := Accrue(c, at, x.key, PostsAt(cfg, x.key), x.amount, x.proceeds, x.units);
      InsertWeight(c.quotes, Instruments(c.orders), c.queue, PostsAt(cfg, x.key), PostBatch(x.key));
      if r.Ok? {
        AccrueAllWeight(cfg, r.value, at, charges[1..]);
      }
    }
  }

  /** Accrual touches the queue and the batches, and queues at most four postings. */
  lemma AccrueFeesWeight(cfg: Config, c: Core, o: Order, at: int, qty: real, price: real, suffix: nat)
    ensures var r := AccrueFees(cfg, c, o, at, qty, price, suffix);
            r.Ok? ==> r.value == c.(queue := r.value.queue, batches := r.value.batches)
                      && Weight(r.value) <= Weight(c) + 4
  {
    if cfg.fees.Some? {
      var own := OwnFee(cfg, o, at, qty, price, suffix);
      var queued := if own.Some? then Push(c, own.value.at, own.value.event) else c;
      if own.Some? {
        InsertWeight(c.quotes, Instruments(c.orders), c.queue, own.value.at, own.value.event);
      }
      AccrueAllWeight(cfg, queued, at, Charges(cfg, o, at, qty, price));
    }
  }

  lemma ExecuteShrinks(cfg: Config, c: Core, id: nat, at: int, scripted: real, price: real)
    requires c.history != [] && id < |c.orders|
    ensures var r := Execute(cfg, c, id, at, scripted, price);
            r.Ok? ==> && r.value.history != [] && |r.value.orders| == |c.orders|
                      && r.value == c.(history := r.value.history, queue := r.value.queue, orders := r.value.orders,
                                       activities := r.value.activities, batches := r.value.batches,
                                       draws := r.value.draws)
                      && Weight(r.value) <= Weight(c) + 4
  {
    var qty := scripted + c.orders[id].overfill;
    var executed := Executed(cfg, c, id, at, scripted, price);
    assert Instruments(executed.orders) == Instruments(c.orders);
    var booked := BookFill(c.history, executed.orders[id], at, qty, price);
    if booked.Ok? {
      AccrueFeesWeight(cfg, executed.(history := booked.value), executed.orders[id], at, qty, price, c.draws);
    }
  }

  lemma RearmShrinks(c: Core, k: Instrument, at: int, event: Event)
    requires event.Fill? && event.orderId < |c.orders| && c.orders[event.orderId].instrument == k
    ensures Weight(Rearm(c, k, at, event)) < Weight(c) + EventWeight(c.quotes, Instruments(c.orders), Timed(at, event))
  {
    var later := Later(SeriesOf(c.quotes, k), at);
    if later != [] {
      assert later[0] in later;
      LaterShrinks(SeriesOf(c.quotes, k), at, later[0].at);
      InsertWeight(c.quotes, Instruments(c.orders), c.queue, later[0].at, event);
    }
  }

  lemma ApplyFillShrinks(cfg: Config, c: Core, at: int, event: Event)
    requires c.history != [] && event.Fill? && event.orderId < |c.orders|
    ensures var r := ApplyFill(cfg, c, at, event);
            r.Ok? ==> && r.value.history != [] && |r.value.orders| == |c.orders|
                      && Weight(r.value) < Weight(c) + EventWeight(c.quotes, Instruments(c.orders), Timed(at, event))
  {
    var o := c.orders[event.orderId];
    var plan := PlanFill(c.quotes, o, at, event);
    if plan.Wait? {
      RearmShrinks(c, o.instrument, at, event);
    } else if plan.Take? {
      ExecuteShrinks(cfg, c, event.orderId, at, plan.scripted, plan.price);
    }
  }

  lemma ApplyFeeShrinks(cfg: Config, c: Core, at: int, event: Event)
    requires c.history != [] && (event.PostBatch? || event.PostRow?)
    ensures var r := ApplyFee(cfg, c, at, event);
            r.Ok? ==> && r.value.history != []
                      && r.value == c.(history := r.value.history, activities := r.value.activities,
                                       batches := r.value.batches, draws := r.value.draws)
  {
  }

  /** Every applied event makes the remaining work strictly smaller, whatever it queues or re-arms. */
  lemma ApplyShrinks(cfg: Config, c: Core, at: int, event: Event)
    requires c.history != []
    ensures var r := Apply(cfg, c, at, event);
            r.Ok? ==> && r.value.history != [] && |r.value.orders| == |c.orders|
                      && Weight(r.value) < Weight(c) + EventWeight(c.quotes, Instruments(c.orders), Timed(at, event))
  {
    var r := Apply(cfg, c, at, event);
    if event.PostBatch? || event.PostRow? {
      ApplyFeeShrinks(cfg, c, at, event);
    } else if r.Ok? && !IsTerminal(c.orders[event.orderId].status) {
      if event.Fill? {
        ApplyFillShrinks(cfg, c, at, event);
      } else {
        assert Instruments(r.value.orders) == Instruments(c.orders);
      }
    }
  }

  /** Applies, in time order, every event due at `now`: what a read does before it observes. */
  function Drain(cfg: Config, c: Core, now: int): (r: Outcome)
    requires c.history != []
    ensures r.Ok? ==> r.value.history != []
    ensures r.Ok? ==> r.value.queue == [] || r.value.queue[0].at > now
    decreases Weight(c)
  {
    if c.queue == [] || c.queue[0].at > now then Ok(c)
    else
      var (at, event) := (c.queue[0].at, c.queue[0].event);
      ApplyShrinks(cfg, Popped(c), at, event);
      match Apply(cfg, Popped(c), at, event)
      case Err(e) => Err(e)
      case Ok(next) => Drain(cfg, next, now)
  }
}
