/** What one event does, seen without draw numbers and without the order of equals, as a change to separate parts of
    the account. Two events at one instant that touch different symbols may then be applied in either order: both
    orders break the script or both end alike, with batch charges as sums. */
module SimulatorViews {
  import opened Common
  import opened SimulatorModel
  import opened SimulatorPolling
  import opened SimulatorTimeline
  import opened SimulatorSwaps

  // ---- the account without draw numbers ----

  function PlainRow(row: Row): Row {
    if row.SingleFeeRow? then SingleFeeRow(row.row.(executionId := None)) else row
  }

  function PlainActivity(a: Activity): Activity { a.(id := 0, row := PlainRow(a.row)) }

  function PlainActivities(activities: seq<Activity>): multiset<Activity> {
    if activities == [] then multiset{}
    else PlainActivities(activities[..|activities| - 1]) + multiset{PlainActivity(activities[|activities| - 1])}
  }

  lemma {:induction false} MoreActivities(activities: seq<Activity>, a: Activity)
    ensures PlainActivities(activities + [a]) == PlainActivities(activities) + multiset{PlainActivity(a)}
  {
    assert (activities + [a])[..|activities|] == activities;
  }

  /** Activities and queue as multisets, each entry with its instants and its content but no draw number. */
  datatype View = View(
    history: seq<State>, quotes: map<Instrument, seq<Quote>>, orders: seq<Order>, parked: map<Instrument, seq<Waiting>>,
    batches: map<BatchKey, Batch>, queued: multiset<Timed>, activities: multiset<Activity>, draws: nat)

  function ViewOf(c: Core): View {
    View(c.history, c.quotes, c.orders, c.parked, c.batches, multiset(PlainQueue(c.queue)),
         PlainActivities(c.activities), c.draws)
  }

  lemma {:induction false} QueuedInsert(queue: seq<Timed>, at: int, e: Event)
    ensures multiset(PlainQueue(Insert(queue, at, e))) == multiset(PlainQueue(queue)) + multiset{Timed(at, Plain(e))}
  {
    PlainInsert(queue, at, e);
    InsertCounts(PlainQueue(queue), at, Plain(e));
  }

  lemma {:induction false} InsertCounts(queue: seq<Timed>, at: int, e: Event)
    ensures multiset(Insert(queue, at, e)) == multiset(queue) + multiset{Timed(at, e)}
  {
    if queue != [] && at >= queue[0].at {
      InsertCounts(queue[1..], at, e);
      assert queue == [queue[0]] + queue[1..];
    }
  }

  // ---- moving cash and one holding ----

  datatype Move = Stay | Trade(order: Order, qty: real, price: real) | Fee(cash: real, coin: Option<(string, real)>)

  function MovedSymbol(m: Move): Option<string> {
    match m
    case Stay => None
    case Trade(o, _, _) => Some(o.instrument.symbol)
    case Fee(_, coin) => if coin.Some? then Some(coin.value.0) else None
  }

  function CashMove(m: Move): real {
    match m
    case Stay => 0.0
    case Trade(o, qty, price) => -Cost(o, qty, price)
    case Fee(cash, _) => cash
  }

  function Lessened(h: Holding, delta: real): Holding { h.(qty := h.qty + delta) }

  function HoldMove(holdings: map<string, Holding>, m: Move): Option<map<string, Holding>> {
    match m
    case Stay => Some(holdings)
    case Trade(o, qty, price) =>
      if o.side == Sell && Qty(holdings, o.instrument.symbol) < qty && !o.oversell && o.overfilled == 0.0 then None
      else Some(HoldingsAfterFill(holdings, o, qty, price))
    case Fee(_, coin) =>
      if coin.None? then Some(holdings)
      else
        var (symbol, delta) := coin.value;
        if symbol !in holdings || holdings[symbol].qty + delta < 0.0 then None
        else if holdings[symbol].qty + delta == 0.0 then Some(holdings - {symbol})
        else Some(holdings[symbol := Lessened(holdings[symbol], delta)])
  }

  function BookMove(history: seq<State>, at: int, m: Move): (r: Option<seq<State>>)
    requires history != []
    ensures r.Some? ==> r.value != []
  {
    if m.Stay? then Some(history)
    else
      var s := StateAt(history, at);
      var holdings := HoldMove(s.holdings, m);
      if holdings.None? then None else Some(Record(history, State(at, s.cash + CashMove(m), holdings.value)))
  }

  predicate AlikeAt(a: map<string, Holding>, b: map<string, Holding>, symbol: string) {
    (symbol in a <==> symbol in b) && (symbol in a ==> a[symbol] == b[symbol])
  }

  lemma HoldElsewhere(holdings: map<string, Holding>, m: Move, symbol: string)
    requires HoldMove(holdings, m).Some? && MovedSymbol(m) != Some(symbol)
    ensures AlikeAt(HoldMove(holdings, m).value, holdings, symbol)
  {
    hide Blended;
  }

  lemma HoldHere(a: map<string, Holding>, b: map<string, Holding>, m: Move)
    requires MovedSymbol(m).Some? && AlikeAt(a, b, MovedSymbol(m).value)
    ensures HoldMove(a, m).Some? <==> HoldMove(b, m).Some?
    ensures HoldMove(a, m).Some? ==> AlikeAt(HoldMove(a, m).value, HoldMove(b, m).value, MovedSymbol(m).value)
  {
    hide Blended;
  }

  predicate Disjoint(a: Move, b: Move) {
    !(MovedSymbol(a).Some? && MovedSymbol(a) == MovedSymbol(b))
  }

  function HoldTwice(holdings: map<string, Holding>, a: Move, b: Move): Option<map<string, Holding>> {
    var first := HoldMove(holdings, a);
    if first.None? then None else HoldMove(first.value, b)
  }

  lemma CashOnly(holdings: map<string, Holding>, m: Move)
    requires MovedSymbol(m).None?
    ensures HoldMove(holdings, m) == Some(holdings)
  {
  }

  lemma HoldingsCommute(holdings: map<string, Holding>, a: Move, b: Move)
    requires Disjoint(a, b)
    ensures HoldTwice(holdings, a, b) == HoldTwice(holdings, b, a)
  {
    hide HoldMove;
    if MovedSymbol(a).None? || MovedSymbol(b).None? {
      forall h, m | m in {a, b} && MovedSymbol(m).None? ensures HoldMove(h, m) == Some(h) { CashOnly(h, m); }
    } else {
      HoldingsCommuteFrom(holdings, a, b);
      HoldingsCommuteFrom(holdings, b, a);
      if HoldTwice(holdings, a, b).Some? {
        var x, y := HoldTwice(holdings, a, b).value, HoldTwice(holdings, b, a).value;
        forall symbol ensures AlikeAt(x, y, symbol) {
          HoldTwiceAt(holdings, a, b, symbol);
          HoldTwiceAt(holdings, b, a, symbol);
        }
        AlikeEverywhere(x, y);
      }
    }
  }

  lemma AlikeEverywhere(a: map<string, Holding>, b: map<string, Holding>)
    requires forall symbol :: AlikeAt(a, b, symbol)
    ensures a == b
  {
    assert forall symbol :: symbol in a ==> AlikeAt(a, b, symbol);
    assert forall symbol :: symbol in b ==> AlikeAt(a, b, symbol);
  }

  lemma HoldingsCommuteFrom(holdings: map<string, Holding>, a: Move, b: Move)
    requires MovedSymbol(a).Some? && MovedSymbol(b).Some? && Disjoint(a, b)
    ensures HoldTwice(holdings, a, b).Some? <==> HoldMove(holdings, a).Some? && HoldMove(holdings, b).Some?
  {
    hide HoldMove;
    if HoldMove(holdings, a).Some? {
      HoldElsewhere(holdings, a, MovedSymbol(b).value);
      HoldHere(holdings, HoldMove(holdings, a).value, b);
    }
  }

  /** After two disjoint moves each symbol is as its own move leaves it. */
  lemma HoldTwiceAt(holdings: map<string, Holding>, a: Move, b: Move, symbol: string)
    requires MovedSymbol(a).Some? && MovedSymbol(b).Some? && Disjoint(a, b) && HoldTwice(holdings, a, b).Some?
    ensures HoldMove(holdings, a).Some? && HoldMove(holdings, b).Some?
    ensures var r := HoldTwice(holdings, a, b).value;
            if Some(symbol) == MovedSymbol(a) then AlikeAt(r, HoldMove(holdings, a).value, symbol)
            else if Some(symbol) == MovedSymbol(b) then AlikeAt(r, HoldMove(holdings, b).value, symbol)
            else AlikeAt(r, holdings, symbol)
  {
    hide HoldMove;
    HoldingsCommuteFrom(holdings, a, b);
    var first := HoldMove(holdings, a).value;
    if Some(symbol) == MovedSymbol(b) {
      HoldElsewhere(holdings, a, symbol);
      HoldHere(first, holdings, b);
    } else {
      HoldElsewhere(first, b, symbol);
      if Some(symbol) != MovedSymbol(a) { HoldElsewhere(holdings, a, symbol); }
    }
  }

  // ---- why one symbol's moves keep their order ----

  /** Of a purchase and a sale of one symbol, which order breaks the script: only the sale needs what is held. */
  lemma SaleNeedsItsPurchase(holdings: map<string, Holding>, buy: Order, bought: real, sell: Order, sold: real,
                             price: real)
    requires buy.instrument.symbol == sell.instrument.symbol && buy.side == Buy && sell.side == Sell
    requires !sell.oversell && sell.overfilled == 0.0
    ensures var held := Qty(holdings, sell.instrument.symbol);
            && (HoldTwice(holdings, Trade(buy, bought, price), Trade(sell, sold, price)).Some?
               <==> held + bought >= sold)
            && (HoldTwice(holdings, Trade(sell, sold, price), Trade(buy, bought, price)).Some? <==> held >= sold)
  {
    hide Blended;
    HeldAfter(holdings, buy, bought, price);
  }

  lemma HeldAfter(holdings: map<string, Holding>, o: Order, qty: real, price: real)
    ensures Qty(HoldingsAfterFill(holdings, o, qty, price), o.instrument.symbol)
         == Qty(holdings, o.instrument.symbol) + Signed(o.side, qty)
  {
    hide Blended;
  }

  /** Of a purchase of a coin and a fee in it, which order breaks the script: only the fee needs what is held. */
  lemma CoinFeeNeedsItsPurchase(holdings: map<string, Holding>, buy: Order, bought: real, price: real, fee: real)
    requires buy.side == Buy && bought >= fee > 0.0 && Qty(holdings, buy.instrument.symbol) >= 0.0
    ensures var coin := Fee(0.0, Some((buy.instrument.symbol, -fee)));
            && HoldTwice(holdings, Trade(buy, bought, price), coin).Some?
            && (HoldTwice(holdings, coin, Trade(buy, bought, price)).Some?
               <==> Qty(holdings, buy.instrument.symbol) >= fee)
  {
    hide Blended;
    HeldAfter(holdings, buy, bought, price);
  }

  lemma NotZero(a: real, b: real)
    requires a > 0.0
    ensures a * b == 0.0 <==> b == 0.0
  {
  }

  lemma EqualQuotients(x: real, y: real, a: real, b: real)
    requires a > 0.0 && b > 0.0
    ensures x / a == y / b <==> x * b == y * a
  {
    var q, r, ab := x / a, y / b, a * b;
    assert x == q * a && y == r * b;
    assert x * b == q * ab && y * a == r * ab;
    assert q * ab - r * ab == ab * (q - r);
    NotZero(ab, q - r);
  }

  lemma CrossDifference(n: real, entry: real, fee: real, h: real)
    ensures (n - fee * entry) * h - n * (h - fee) == fee * (n - entry * h)
  {
  }

  /** A fee taken from what was held before changes the average of what is held after, unless it was held at the
      price. */
  lemma AverageMoves(held: real, entry: real, added: real, price: real, fee: real)
    requires held > fee > 0.0 && added > 0.0
    ensures Blended(held - fee, entry, added, price) == Blended(held, entry, added, price) <==> entry == price
  {
    var n, h := held * entry + added * price, held + added;
    assert (held - fee) * entry + added * price == n - fee * entry;
    assert n - entry * h == added * (price - entry);
    EqualQuotients(n - fee * entry, n, h - fee, h);
    CrossDifference(n, entry, fee, h);
    NotZero(fee, n - entry * h);
    NotZero(added, price - entry);
  }

  /** And even where the coin held covers the fee, the two orders agree only if it was bought at the same price. */
  lemma CoinFeeMovesTheEntryPrice(holdings: map<string, Holding>, buy: Order, bought: real, price: real, fee: real)
    requires buy.side == Buy && bought > 0.0 && Qty(holdings, buy.instrument.symbol) > fee > 0.0
    ensures var coin, trade := Fee(0.0, Some((buy.instrument.symbol, -fee))), Trade(buy, bought, price);
            && HoldTwice(holdings, coin, trade).Some? && HoldTwice(holdings, trade, coin).Some?
            && (HoldTwice(holdings, coin, trade) == HoldTwice(holdings, trade, coin)
                <==> holdings[buy.instrument.symbol].avgEntry == price)
  {
    var symbol := buy.instrument.symbol;
    var h := holdings[symbol];
    AverageMoves(h.qty, h.avgEntry, bought, price, fee);
    hide Blended;
    var coin, trade := Fee(0.0, Some((symbol, -fee))), Trade(buy, bought, price);
    var x := h.(qty := h.qty - fee + bought, avgEntry := Blended(h.qty - fee, h.avgEntry, bought, price));
    var y := h.(qty := h.qty + bought - fee, avgEntry := Blended(h.qty, h.avgEntry, bought, price));
    CoinThenTrade(holdings, buy, bought, price, fee);
    TradeThenCoin(holdings, buy, bought, price, fee);
    assert holdings[symbol := x][symbol] == x && holdings[symbol := y][symbol] == y;
  }

  lemma CoinThenTrade(holdings: map<string, Holding>, buy: Order, bought: real, price: real, fee: real)
    requires buy.side == Buy && bought > 0.0 && Qty(holdings, buy.instrument.symbol) > fee > 0.0
    ensures var symbol := buy.instrument.symbol;
            var h := holdings[symbol];
            HoldTwice(holdings, Fee(0.0, Some((symbol, -fee))), Trade(buy, bought, price))
            == Some(holdings[symbol := h.(qty := h.qty - fee + bought,
                                          avgEntry := Blended(h.qty - fee, h.avgEntry, bought, price))])
  {
    hide Blended;
    var symbol := buy.instrument.symbol;
    var h := holdings[symbol];
    var left := holdings[symbol := Lessened(h, -fee)];
    assert HoldMove(holdings, Fee(0.0, Some((symbol, -fee)))) == Some(left) && left[symbol].qty == h.qty - fee;
    var after := left[symbol].(qty := h.qty - fee + bought,
                               avgEntry := Blended(h.qty - fee, h.avgEntry, bought, price));
    assert HoldMove(left, Trade(buy, bought, price)) == Some(left[symbol := after]);
    assert left[symbol := after] == holdings[symbol := after];
  }

  lemma TradeThenCoin(holdings: map<string, Holding>, buy: Order, bought: real, price: real, fee: real)
    requires buy.side == Buy && bought > 0.0 && Qty(holdings, buy.instrument.symbol) > fee > 0.0
    ensures var symbol := buy.instrument.symbol;
            var h := holdings[symbol];
            HoldTwice(holdings, Trade(buy, bought, price), Fee(0.0, Some((symbol, -fee))))
            == Some(holdings[symbol := h.(qty := h.qty + bought - fee,
                                          avgEntry := Blended(h.qty, h.avgEntry, bought, price))])
  {
    hide Blended;
    var symbol := buy.instrument.symbol;
    var h := holdings[symbol];
    var more := h.(qty := h.qty + bought, avgEntry := Blended(h.qty, h.avgEntry, bought, price));
    assert HoldMove(holdings, Trade(buy, bought, price)) == Some(holdings[symbol := more]);
    var after := Lessened(more, -fee);
    assert holdings[symbol := more][symbol := after] == holdings[symbol := after];
  }

  function BookTwice(history: seq<State>, at: int, a: Move, b: Move): Option<seq<State>>
    requires history != []
  {
    var first := BookMove(history, at, a);
    if first.None? then None else BookMove(first.value, at, b)
  }

  /** Two moves at the last instant amount to one record. */
  lemma BookTwiceIs(history: seq<State>, at: int, a: Move, b: Move)
    requires history != [] && HistoryRising(history) && LastAt(history) <= at && !a.Stay? && !b.Stay?
    ensures var s := StateAt(history, at);
            var holdings := HoldTwice(s.holdings, a, b);
            BookTwice(history, at, a, b)
            == if holdings.None? then None
               else Some(Record(history, State(at, s.cash + CashMove(a) + CashMove(b), holdings.value)))
  {
    hide HoldMove, CashMove, StateAt, Record, HistoryRising;
    var s := StateAt(history, at);
    var held := HoldMove(s.holdings, a);
    if held.Some? {
      var t := State(at, s.cash + CashMove(a), held.value);
      var h := Record(history, t);
      RecordEnds(history, t);
      RecordRises(history, t);
      StateAtEnd(h, at);
      if HoldMove(held.value, b).Some? {
        RecordTwice(history, t, State(at, t.cash + CashMove(b), HoldMove(held.value, b).value));
      }
    }
  }

  lemma RecordEnds(history: seq<State>, s: State)
    requires history != []
    ensures Record(history, s) != [] && Record(history, s)[|Record(history, s)| - 1] == s
  {
  }

  lemma RecordTwice(history: seq<State>, s: State, t: State)
    requires history != [] && s.at == t.at
    ensures Record(history, s) != [] && Record(Record(history, s), t) == Record(history, t)
  {
  }

  lemma MovesCommute(history: seq<State>, at: int, a: Move, b: Move)
    requires history != [] && HistoryRising(history) && LastAt(history) <= at && Disjoint(a, b)
    ensures BookTwice(history, at, a, b) == BookTwice(history, at, b, a)
  {
    hide HoldMove, CashMove, StateAt, Record, HoldTwice;
    if !a.Stay? && !b.Stay? {
      BookTwiceIs(history, at, a, b);
      BookTwiceIs(history, at, b, a);
      HoldingsCommute(StateAt(history, at).holdings, a, b);
    }
  }

  // ---- keeping the fee books ----

  /** The batches, and the postings queued for new ones. */
  datatype Books = Books(batches: map<BatchKey, Batch>, queued: multiset<Timed>)

  /** What an event enters: a charge, the posting of a batch, or an event of its own. */
  datatype Entry = Owe(charge: Charge) | Settle(key: BatchKey) | Queue(t: Timed)

  function WithCharge(b: Batch, x: Charge): Batch {
    b.(amount := b.amount + x.amount, proceeds := b.proceeds + x.proceeds, units := b.units + x.units,
      trades := b.trades + 1)
  }

  /** The batch a charge goes to: the one there is, or a new one. */
  function BatchFor(cfg: Config, batches: map<BatchKey, Batch>, key: BatchKey): Batch
    requires cfg.fees.Some?
  {
    if key in batches then batches[key] else Batch(PostsAt(cfg, key), 0.0, 0.0, 0.0, 0, false)
  }

  function PostingFor(cfg: Config, batches: map<BatchKey, Batch>, key: BatchKey): multiset<Timed>
    requires cfg.fees.Some?
  {
    if key in batches then multiset{} else multiset{Timed(PostsAt(cfg, key), PostBatch(key))}
  }

  function ChargeOne(cfg: Config, at: int, s: Books, x: Charge): Option<Books>
    requires cfg.fees.Some?
  {
    var b := BatchFor(cfg, s.batches, x.key);
    if b.posted || at >= b.createdAt then None
    else Some(Books(s.batches[x.key := WithCharge(b, x)], s.queued + PostingFor(cfg, s.batches, x.key)))
  }

  function Settled(batches: map<BatchKey, Batch>, key: BatchKey): map<BatchKey, Batch>
    requires key in batches
  {
    batches[key := batches[key].(posted := true)]
  }

  function Enter(cfg: Config, at: int, s: Books, x: Entry): Option<Books> {
    match x
    case Owe(charge) => if cfg.fees.None? then None else ChargeOne(cfg, at, s, charge)
    case Settle(key) => if key !in s.batches then None else Some(s.(batches := Settled(s.batches, key)))
    case Queue(t) => Some(s.(queued := s.queued + multiset{t}))
  }

  function EnterAll(cfg: Config, at: int, s: Books, entries: seq<Entry>): Option<Books>
    decreases |entries|
  {
    if entries == [] then Some(s)
    else
      var next := Enter(cfg, at, s, entries[0]);
      if next.None? then None else EnterAll(cfg, at, next.value, entries[1..])
  }

  function ThenOne(cfg: Config, at: int, s: Option<Books>, x: Entry): Option<Books> {
    if s.None? then None else Enter(cfg, at, s.value, x)
  }

  function ThenAll(cfg: Config, at: int, s: Option<Books>, entries: seq<Entry>): Option<Books> {
    if s.None? then None else EnterAll(cfg, at, s.value, entries)
  }

  /** A batch posted now is there, and takes no more charges. */
  predicate Due(batches: map<BatchKey, Batch>, at: int, x: Entry) {
    x.Settle? ==> x.key in batches && batches[x.key].createdAt <= at
  }

  /** Two charges to one batch add up in either order, to different batches they do not meet, and a charge to a batch
      that is being posted fails either way. */
  lemma EntriesCommute(cfg: Config, at: int, s: Books, x: Entry, y: Entry)
    requires Due(s.batches, at, x) && Due(s.batches, at, y)
    ensures ThenOne(cfg, at, Enter(cfg, at, s, x), y) == ThenOne(cfg, at, Enter(cfg, at, s, y), x)
  {
    hide ChargeOne;
    if x.Owe? && y.Owe? {
      if cfg.fees.Some? { ChargesCommute(cfg, at, s, x.charge, y.charge); }
    } else if x.Owe? && cfg.fees.Some? {
      PastCharge(cfg, at, s, x.charge, y);
    } else if y.Owe? && cfg.fees.Some? {
      PastCharge(cfg, at, s, y.charge, x);
    } else if x.Settle? && y.Settle? {
      assert x.key != y.key ==> Settled(Settled(s.batches, x.key), y.key) == Settled(Settled(s.batches, y.key), x.key);
    } else if x.Queue? && y.Queue? {
      assert s.queued + multiset{x.t} + multiset{y.t} == s.queued + multiset{y.t} + multiset{x.t};
    }
  }

  lemma PastCharge(cfg: Config, at: int, s: Books, x: Charge, y: Entry)
    requires cfg.fees.Some? && !y.Owe? && Due(s.batches, at, y)
    ensures ThenOne(cfg, at, ChargeOne(cfg, at, s, x), y) == ThenOne(cfg, at, Enter(cfg, at, s, y), Owe(x))
  {
    hide PostsAt, WithCharge;
    var b := BatchFor(cfg, s.batches, x.key);
    if y.Queue? {
      var m := PostingFor(cfg, s.batches, x.key);
      assert s.queued + m + multiset{y.t} == s.queued + multiset{y.t} + m;
    } else if y.key != x.key && !(b.posted || at >= b.createdAt) {
      assert Settled(s.batches[x.key := WithCharge(b, x)], y.key)
        == Settled(s.batches, y.key)[x.key := WithCharge(b, x)];
    }
  }

  function ThenCharge(cfg: Config, at: int, s: Option<Books>, x: Charge): Option<Books>
    requires cfg.fees.Some?
  {
    if s.None? then None else ChargeOne(cfg, at, s.value, x)
  }

  lemma ChargesCommute(cfg: Config, at: int, s: Books, x: Charge, y: Charge)
    requires cfg.fees.Some?
    ensures ThenCharge(cfg, at, ChargeOne(cfg, at, s, x), y) == ThenCharge(cfg, at, ChargeOne(cfg, at, s, y), x)
  {
    hide ThenCharge, ChargeOne;
    if x.key == y.key {
      OneBatchTwice(cfg, at, s, x, y);
      OneBatchTwice(cfg, at, s, y, x);
      var b := BatchFor(cfg, s.batches, x.key);
      assert WithCharge(WithCharge(b, x), y) == WithCharge(WithCharge(b, y), x);
    } else {
      TwoBatches(cfg, at, s, x, y);
      TwoBatches(cfg, at, s, y, x);
      if ThenCharge(cfg, at, ChargeOne(cfg, at, s, x), y).Some? {
        var a, b := BatchFor(cfg, s.batches, x.key), BatchFor(cfg, s.batches, y.key);
        var c, d := WithCharge(a, x), WithCharge(b, y);
        assert s.batches[x.key := c][y.key := d] == s.batches[y.key := d][x.key := c];
        var m, k := PostingFor(cfg, s.batches, x.key), PostingFor(cfg, s.batches, y.key);
        assert s.queued + m + k == s.queued + k + m;
      }
    }
  }

  lemma OneBatchTwice(cfg: Config, at: int, s: Books, x: Charge, y: Charge)
    requires cfg.fees.Some? && x.key == y.key
    ensures var b := BatchFor(cfg, s.batches, x.key);
            ThenCharge(cfg, at, ChargeOne(cfg, at, s, x), y)
            == if b.posted || at >= b.createdAt then None
               else Some(Books(s.batches[x.key := WithCharge(WithCharge(b, x), y)],
                               s.queued + PostingFor(cfg, s.batches, x.key)))
  {
    hide PostsAt;
    var b := BatchFor(cfg, s.batches, x.key);
    if !(b.posted || at >= b.createdAt) {
      var next := ChargeOne(cfg, at, s, x).value;
      assert BatchFor(cfg, next.batches, y.key) == WithCharge(b, x)
        && PostingFor(cfg, next.batches, y.key) == multiset{};
      assert s.batches[x.key := WithCharge(b, x)][y.key := WithCharge(WithCharge(b, x), y)]
          == s.batches[x.key := WithCharge(WithCharge(b, x), y)];
      assert next.queued + multiset{} == next.queued;
    }
  }

  lemma TwoBatches(cfg: Config, at: int, s: Books, x: Charge, y: Charge)
    requires cfg.fees.Some? && x.key != y.key
    ensures var a, b := BatchFor(cfg, s.batches, x.key), BatchFor(cfg, s.batches, y.key);
            ThenCharge(cfg, at, ChargeOne(cfg, at, s, x), y)
            == if a.posted || at >= a.createdAt || b.posted || at >= b.createdAt then None
               else Some(Books(s.batches[x.key := WithCharge(a, x)][y.key := WithCharge(b, y)],
                               s.queued + PostingFor(cfg, s.batches, x.key) + PostingFor(cfg, s.batches, y.key)))
  {
    hide PostsAt, WithCharge;
  }

  /** Entering leaves every batch that is due as it is, unless it posts it. */
  lemma EnterKeepsDue(cfg: Config, at: int, s: Books, x: Entry, key: BatchKey)
    requires key in s.batches && s.batches[key].createdAt <= at && Enter(cfg, at, s, x).Some?
    ensures var after := Enter(cfg, at, s, x).value.batches;
            key in after && after[key].createdAt <= at && (x != Settle(key) ==> after[key] == s.batches[key])
  {
    hide PostsAt, WithCharge;
  }

  lemma EnterStillDue(cfg: Config, at: int, s: Books, x: Entry, y: Entry)
    requires Enter(cfg, at, s, x).Some? && Due(s.batches, at, y)
    ensures Due(Enter(cfg, at, s, x).value.batches, at, y)
  {
    hide Enter;
    if y.Settle? { EnterKeepsDue(cfg, at, s, x, y.key); }
  }

  predicate AllDue(batches: map<BatchKey, Batch>, at: int, entries: seq<Entry>) {
    forall x :: x in entries ==> Due(batches, at, x)
  }

  lemma EnterAllStillDue(cfg: Config, at: int, s: Books, x: Entry, entries: seq<Entry>)
    requires Enter(cfg, at, s, x).Some? && AllDue(s.batches, at, entries)
    ensures AllDue(Enter(cfg, at, s, x).value.batches, at, entries)
  {
    hide Enter, Due;
    forall y | y in entries ensures Due(Enter(cfg, at, s, x).value.batches, at, y) { EnterStillDue(cfg, at, s, x, y); }
  }

  lemma {:induction false} EnterPastAll(cfg: Config, at: int, s: Books, x: Entry, entries: seq<Entry>)
    requires Due(s.batches, at, x) && AllDue(s.batches, at, entries)
    ensures ThenAll(cfg, at, Enter(cfg, at, s, x), entries) == ThenOne(cfg, at, EnterAll(cfg, at, s, entries), x)
    decreases |entries|
  {
    hide Enter, Due;
    if entries != [] {
      assert entries[0] in entries;
      EntriesCommute(cfg, at, s, x, entries[0]);
      var next := Enter(cfg, at, s, entries[0]);
      if next.Some? {
        EnterStillDue(cfg, at, s, entries[0], x);
        EnterAllStillDue(cfg, at, s, entries[0], entries[1..]);
        EnterPastAll(cfg, at, next.value, x, entries[1..]);
      }
    }
  }

  lemma {:induction false} AllEntriesCommute(cfg: Config, at: int, s: Books, a: seq<Entry>, b: seq<Entry>)
    requires AllDue(s.batches, at, a) && AllDue(s.batches, at, b)
    ensures ThenAll(cfg, at, EnterAll(cfg, at, s, a), b) == ThenAll(cfg, at, EnterAll(cfg, at, s, b), a)
    decreases |a|
  {
    hide Enter, Due;
    if a != [] {
      assert a[0] in a;
      EnterPastAll(cfg, at, s, a[0], b);
      var next := Enter(cfg, at, s, a[0]);
      if next.Some? {
        EnterAllStillDue(cfg, at, s, a[0], a[1..]);
        EnterAllStillDue(cfg, at, s, a[0], b);
        AllEntriesCommute(cfg, at, next.value, a[1..], b);
      }
    }
  }

  /** A whole list of entries leaves a due batch as it is, unless it posts it. */
  lemma {:induction false} EnterAllKeepsDue(cfg: Config, at: int, s: Books, entries: seq<Entry>, key: BatchKey)
    requires key in s.batches && s.batches[key].createdAt <= at && EnterAll(cfg, at, s, entries).Some?
    ensures var after := EnterAll(cfg, at, s, entries).value.batches;
            key in after && (Settle(key) !in entries ==> after[key] == s.batches[key])
    decreases |entries|
  {
    hide Enter;
    if entries != [] {
      EnterKeepsDue(cfg, at, s, entries[0], key);
      EnterAllKeepsDue(cfg, at, Enter(cfg, at, s, entries[0]).value, entries[1..], key);
    }
  }
}
