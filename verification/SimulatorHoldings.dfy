/** Without injected faults, short seeds and coin fees, the simulator's oversell and overfill script errors cannot
    happen: what is held always covers what open sells may still fill, and what is scripted for an order is never more
    than it has left. */
module SimulatorHoldings {
  import opened Common
  import opened TradingSession
  import opened SimulatorModel
  import opened SimulatorCommands
  import opened SimulatorOrders
  import opened SimulatorPolling
  import opened SimulatorTimeline
  import opened SimulatorLedger

  predicate FaultFree(cmd: Command) {
    && !cmd.OverfillNext?
    && (cmd.Place? ==> !cmd.request.oversell)
    && (cmd.SeedPosition? ==> cmd.qty >= 0.0)
  }

  predicate NoCoinFees(cfg: Config) {
    cfg.fees.Some? ==> cfg.fees.value.rates.cryptoRate == 0.0
  }

  // ---- what is queued or parked for one order ----

  function EventQty(e: Event, id: nat): real {
    if e.Fill? && e.orderId == id && e.qty.Some? then e.qty.value else 0.0
  }

  function QueuedQty(queue: seq<Timed>, id: nat): real {
    if queue == [] then 0.0 else EventQty(queue[0].event, id) + QueuedQty(queue[1..], id)
  }

  function ParkedQty(waiting: seq<Waiting>, id: nat): real {
    if waiting == [] then 0.0 else EventQty(waiting[0].event, id) + ParkedQty(waiting[1..], id)
  }

  function ScriptedQty(c: Core, id: nat): real
    requires id < |c.orders|
  {
    QueuedQty(c.queue, id) + ParkedQty(ParkedOn(c.parked, c.orders[id].instrument), id)
  }

  /** A scripted quantity is positive, and a fee row moves no coin. */
  predicate QuietEvent(e: Event) {
    && (e.Fill? && e.qty.Some? ==> e.qty.value > 0.0)
    && (e.PostRow? ==> e.row.coinDelta.None?)
  }

  ghost predicate Quiet(c: Core) {
    && (forall t :: t in c.queue ==> QuietEvent(t.event))
    && (forall k :: k in c.parked ==> forall w :: w in c.parked[k] ==>
          QuietEvent(w.event) && w.event.Fill? && w.event.orderId < |c.orders|
            && c.orders[w.event.orderId].instrument == k)
    && (forall i :: 0 <= i < |c.orders| ==>
          !c.orders[i].oversell && c.orders[i].overfill == 0.0 && c.orders[i].overfilled == 0.0)
  }

  ghost predicate Scheduled(c: Core) {
    forall i :: 0 <= i < |c.orders| && !IsTerminal(c.orders[i].status) ==> ScriptedQty(c, i) <= c.orders[i].Remaining()
  }

  /** What is held covers what every open sell of the symbol may still take. */
  ghost predicate Covers(holdings: map<string, Holding>, orders: seq<Order>) {
    forall symbol :: Qty(holdings, symbol) >= Committed(orders, symbol)
  }

  ghost predicate Covered(c: Core)
    requires c.history != []
  {
    Covers(c.history[|c.history| - 1].holdings, c.orders)
  }

  ghost predicate Solid(cfg: Config, c: Core) {
    c.history != [] && Sane(cfg, c) && OrdersOk(c) && Quiet(c) && Scheduled(c) && Covered(c)
  }

  /** The script errors that remain possible. */
  predicate ExpectedError(e: ScriptError) {
    e == NoUsableQuote || e == WorseThanLimit || e == FillAfterBatchPosted
  }

  // ---- sums ----

  function Owes(o: Order, symbol: string): real {
    if o.instrument.symbol == symbol && o.side == Sell && IsOpenStatus(o.status) then o.Remaining() else 0.0
  }

  lemma {:induction false} CommittedUpdate(orders: seq<Order>, id: nat, o: Order, symbol: string)
    requires id < |orders|
    ensures Committed(orders[id := o], symbol) == Committed(orders, symbol) - Owes(orders[id], symbol) + Owes(o, symbol)
  {
    var after := orders[id := o];
    if id == 0 {
      assert after[1..] == orders[1..];
    } else {
      assert after[1..] == orders[1..][id - 1 := o];
      CommittedUpdate(orders[1..], id - 1, o, symbol);
    }
  }

  lemma {:induction false} CommittedCovers(orders: seq<Order>, id: nat, symbol: string)
    requires id < |orders|
    ensures Committed(orders, symbol) >= Owes(orders[id], symbol)
    ensures Committed(orders[1..], symbol) >= 0.0
  {
    CommittedNotNegative(orders[1..], symbol);
    if id > 0 { CommittedCovers(orders[1..], id - 1, symbol); }
  }

  lemma {:induction false} CommittedNotNegative(orders: seq<Order>, symbol: string)
    ensures Committed(orders, symbol) >= 0.0
  {
    if orders != [] { CommittedNotNegative(orders[1..], symbol); }
  }

  lemma {:induction false} CommittedAppend(orders: seq<Order>, o: Order, symbol: string)
    ensures Committed(orders + [o], symbol) == Committed(orders, symbol) + Owes(o, symbol)
  {
    if orders == [] {
      assert [] + [o] == [o];
    } else {
      assert (orders + [o])[1..] == orders[1..] + [o];
      CommittedAppend(orders[1..], o, symbol);
    }
  }

  lemma {:induction false} InsertQty(queue: seq<Timed>, at: int, e: Event, id: nat)
    ensures QueuedQty(Insert(queue, at, e), id) == QueuedQty(queue, id) + EventQty(e, id)
  {
    if queue == [] || at < queue[0].at {
      assert ([Timed(at, e)] + queue)[1..] == queue;
    } else {
      InsertQty(queue[1..], at, e, id);
      assert ([queue[0]] + Insert(queue[1..], at, e))[1..] == Insert(queue[1..], at, e);
    }
  }

  lemma {:induction false} ParkedAppend(waiting: seq<Waiting>, w: Waiting, id: nat)
    ensures ParkedQty(waiting + [w], id) == ParkedQty(waiting, id) + EventQty(w.event, id)
  {
    if waiting == [] {
      assert waiting + [w] == [w];
    } else {
      assert (waiting + [w])[1..] == waiting[1..] + [w];
      ParkedAppend(waiting[1..], w, id);
    }
  }

  lemma {:induction false} RearmedQty(queue: seq<Timed>, at: int, waiting: seq<Waiting>, id: nat)
    ensures QueuedQty(Rearmed(queue, at, waiting), id) == QueuedQty(queue, id) + ParkedQty(waiting, id)
    decreases |waiting|
  {
    if waiting != [] {
      InsertQty(queue, MaxInt(at, waiting[0].since), waiting[0].event, id);
      RearmedQty(Insert(queue, MaxInt(at, waiting[0].since), waiting[0].event), at, waiting[1..], id);
    }
  }

  lemma {:induction false} ParkedElsewhere(waiting: seq<Waiting>, id: nat)
    requires forall w :: w in waiting ==> w.event.Fill? && w.event.orderId != id
    ensures ParkedQty(waiting, id) == 0.0
  {
    if waiting != [] {
      assert waiting[0] in waiting;
      ParkedElsewhere(waiting[1..], id);
    }
  }

  lemma {:induction false} QueuedNotNegative(queue: seq<Timed>, id: nat)
    requires forall t :: t in queue ==> QuietEvent(t.event)
    ensures QueuedQty(queue, id) >= 0.0
  {
    if queue != [] {
      assert queue[0] in queue;
      QueuedNotNegative(queue[1..], id);
    }
  }

  lemma {:induction false} ParkedNotNegative(waiting: seq<Waiting>, id: nat)
    requires forall w :: w in waiting ==> QuietEvent(w.event)
    ensures ParkedQty(waiting, id) >= 0.0
  {
    if waiting != [] {
      assert waiting[0] in waiting;
      ParkedNotNegative(waiting[1..], id);
    }
  }

  lemma {:induction false} UnknownOrderQueuesNothing(queue: seq<Timed>, id: nat, batches: map<BatchKey, Batch>)
    requires SaneQueue(queue, id, batches)
    ensures QueuedQty(queue, id) == 0.0
  {
    if queue != [] {
      assert queue[0] in queue;
      UnknownOrderQueuesNothing(queue[1..], id, batches);
    }
  }

  // ---- accrual queues only fee postings ----

  lemma {:induction false} AccrueAllQuiet(cfg: Config, c: Core, at: int, charges: seq<Charge>)
    requires cfg.fees.Some? && (forall t :: t in c.queue ==> QuietEvent(t.event))
    ensures var r := AccrueAll(cfg, c, at, charges);
            && (r.Ok? ==>
                  && (forall t :: t in r.value.queue ==> QuietEvent(t.event))
                  && (forall id :: QueuedQty(r.value.queue, id) == QueuedQty(c.queue, id)))
            && (r.Err? ==> r.error == FillAfterBatchPosted)
    decreases |charges|
  {
    if charges != [] {
      var x := charges[0];
      var r := Accrue(c, at, x.key, PostsAt(cfg, x.key), x.amount, x.proceeds, x.units);
      InsertMembers(c.queue, PostsAt(cfg, x.key), PostBatch(x.key));
      forall id
        ensures QueuedQty(Insert(c.queue, PostsAt(cfg, x.key), PostBatch(x.key)), id)
             == QueuedQty(c.queue, id)
      {
        InsertQty(c.queue, PostsAt(cfg, x.key), PostBatch(x.key), id);
      }
      if r.Ok? { AccrueAllQuiet(cfg, r.value, at, charges[1..]); }
    }
  }

  lemma OwnFeeQuiet(cfg: Config, o: Order, at: int, qty: real, price: real, suffix: nat)
    requires cfg.fees.Some? && NoCoinFees(cfg)
    ensures var own := OwnFee(cfg, o, at, qty, price, suffix); own.Some? ==> QuietEvent(own.value.event)
  {
  }

  lemma AccrueFeesQuiet(cfg: Config, c: Core, o: Order, at: int, qty: real, price: real, suffix: nat)
    requires NoCoinFees(cfg) && (forall t :: t in c.queue ==> QuietEvent(t.event))
    ensures var r := AccrueFees(cfg, c, o, at, qty, price, suffix);
            && (r.Ok? ==>
                  && (forall t :: t in r.value.queue ==> QuietEvent(t.event))
                  && (forall id :: QueuedQty(r.value.queue, id) == QueuedQty(c.queue, id)))
            && (r.Err? ==> r.error == FillAfterBatchPosted)
  {
    hide OwnFee, AccrueAll, Charges, Insert, QueuedQty;
    if cfg.fees.Some? {
      OwnFeeQuiet(cfg, o, at, qty, price, suffix);
      var own := OwnFee(cfg, o, at, qty, price, suffix);
      var queued := if own.Some? then Push(c, own.value.at, own.value.event) else c;
      if own.Some? {
        InsertMembers(c.queue, own.value.at, own.value.event);
        forall id ensures QueuedQty(queued.queue, id) == QueuedQty(c.queue, id) {
          InsertQty(c.queue, own.value.at, own.value.event, id);
        }
      }
      AccrueAllQuiet(cfg, queued, at, Charges(cfg, o, at, qty, price));
    }
  }

  // ---- one event ----

  /** The state while the head event is being applied: its own quantity has left the queue but not yet the order. */
  ghost predicate ScheduledBut(c: Core, event: Event) {
    forall i :: 0 <= i < |c.orders| && !IsTerminal(c.orders[i].status) ==>
      ScriptedQty(c, i) + EventQty(event, i) <= c.orders[i].Remaining()
  }

  lemma PoppedScheduled(c: Core)
    requires c.queue != [] && Scheduled(c)
    ensures ScheduledBut(Popped(c), c.queue[0].event)
  {
    forall i | 0 <= i < |c.orders| && !IsTerminal(c.orders[i].status)
      ensures ScriptedQty(Popped(c), i) + EventQty(c.queue[0].event, i) <= c.orders[i].Remaining()
    {
      assert ScriptedQty(c, i) == ScriptedQty(Popped(c), i) + EventQty(c.queue[0].event, i);
    }
  }

  ghost predicate Applying(cfg: Config, c: Core, at: int, event: Event) {
    && InOrder(c, at) && Sane(cfg, c) && OrdersOk(c) && Quiet(c) && ScheduledBut(c, event) && Covered(c)
    && QuietEvent(event) && SaneEvent(event, |c.orders|, c.batches)
  }

  lemma FitsOrder(c: Core, event: Event, o: Order)
    requires event.Fill? && event.orderId < |c.orders| && o == c.orders[event.orderId] && !IsTerminal(o.status)
    requires Quiet(c) && QuietEvent(event) && ScheduledBut(c, event) && OrdersOk(c)
    ensures var scripted := if event.qty.Some? then event.qty.value else o.Remaining();
            0.0 < scripted <= o.Remaining() && EventQty(event, event.orderId) <= scripted
  {
    var id := event.orderId;
    assert OrderOk(o, FillRows(c.activities, id));
    QueuedNotNegative(c.queue, id);
    ParkedNotNegative(ParkedOn(c.parked, o.instrument), id);
    assert ScriptedQty(c, id) + EventQty(event, id) <= o.Remaining();
  }

  lemma CoveredAfterFill(c: Core, id: nat, o: Order, s: State, scripted: real)
    requires c.history != [] && Covered(c) && id < |c.orders| && !IsTerminal(c.orders[id].status)
    requires 0.0 < scripted <= c.orders[id].Remaining()
    requires o.instrument == c.orders[id].instrument && o.side == c.orders[id].side
             && o.Remaining() == c.orders[id].Remaining() - scripted
    requires IsOpenStatus(o.status) || o.Remaining() == 0.0
    requires forall symbol :: Qty(s.holdings, symbol) == Qty(c.history[|c.history| - 1].holdings, symbol)
               + (if symbol == o.instrument.symbol then Signed(o.side, scripted) else 0.0)
    ensures Covers(s.holdings, c.orders[id := o])
  {
    forall symbol ensures Qty(s.holdings, symbol) >= Committed(c.orders[id := o], symbol) {
      CommittedUpdate(c.orders, id, o, symbol);
    }
  }

  lemma SellFits(c: Core, id: nat, scripted: real)
    requires c.history != [] && Covered(c) && id < |c.orders| && !IsTerminal(c.orders[id].status)
    requires scripted <= c.orders[id].Remaining() && c.orders[id].side == Sell
    ensures Qty(c.history[|c.history| - 1].holdings, c.orders[id].instrument.symbol) >= scripted
  {
    CommittedCovers(c.orders, id, c.orders[id].instrument.symbol);
  }

  /** A fault-free fill within what is left always books, and what is held still covers every open sell. */
  lemma FillBooks(c: Core, id: nat, at: int, scripted: real, price: real)
    requires InOrder(c, at) && OrdersOk(c) && Quiet(c) && Covered(c) && id < |c.orders|
             && !IsTerminal(c.orders[id].status)
    requires 0.0 < scripted <= c.orders[id].Remaining()
    ensures var o := WithFill(c.orders[id], at, scripted, price);
            var r := BookFill(c.history, o, at, scripted, price);
            r.Ok? && r.value != [] && Covers(r.value[|r.value| - 1].holdings, c.orders[id := o])
  {
    hide HoldingsAfterFill, Committed;
    var o := WithFill(c.orders[id], at, scripted, price);
    OrderFacts(c, id);
    StateAtEnd(c.history, at);
    if o.side == Sell { SellFits(c, id, scripted); }
    var before := StateAt(c.history, at);
    var s := FilledState(before, o, at, scripted, price);
    RecordRises(c.history, s);
    forall symbol
      ensures Qty(s.holdings, symbol) == Qty(before.holdings, symbol)
                + (if symbol == o.instrument.symbol then Signed(o.side, scripted) else 0.0)
    {
      HoldingsMove(before.holdings, o, scripted, price, symbol);
    }
    CoveredAfterFill(c, id, o, s, scripted);
  }

  /** The order's own remainder falls by the fill; every other order is untouched. */
  lemma ScheduledAfterFill(c: Core, d: Core, event: Event, o: Order, scripted: real)
    requires ScheduledBut(c, event) && event.Fill? && event.orderId < |c.orders|
             && !IsTerminal(c.orders[event.orderId].status)
    requires EventQty(event, event.orderId) <= scripted
    requires d.orders == c.orders[event.orderId := o] && d.parked == c.parked
    requires o.instrument == c.orders[event.orderId].instrument
    requires IsTerminal(o.status) || o.Remaining() == c.orders[event.orderId].Remaining() - scripted
    requires IsTerminal(o.status) || event.qty == Some(scripted)
    requires forall id :: QueuedQty(d.queue, id) == QueuedQty(c.queue, id)
    ensures Scheduled(d)
  {
    forall i | 0 <= i < |d.orders| && !IsTerminal(d.orders[i].status)
      ensures ScriptedQty(d, i) <= d.orders[i].Remaining()
    {
      assert ScriptedQty(d, i) == ScriptedQty(c, i);
      assert ScriptedQty(c, i) + EventQty(event, i) <= c.orders[i].Remaining();
    }
  }

  lemma QuietAfterFill(c: Core, d: Core, id: nat, o: Order)
    requires Quiet(c) && id < |c.orders| && d.orders == c.orders[id := o] && d.parked == c.parked
    requires (forall t :: t in d.queue ==> QuietEvent(t.event))
    requires o.instrument == c.orders[id].instrument && !o.oversell && o.overfill == 0.0 && o.overfilled == 0.0
    ensures Quiet(d)
  {
  }

  lemma FilledOrder(o: Order, fillRows: nat, at: int, scripted: real, price: real)
    requires OrderOk(o, fillRows) && !IsTerminal(o.status) && 0.0 < scripted <= o.Remaining()
    requires !o.oversell && o.overfill == 0.0 && o.overfilled == 0.0
    ensures var p := WithFill(o, at, scripted, price);
            && p.instrument == o.instrument && !p.oversell && p.overfill == 0.0 && p.overfilled == 0.0
            && p.Remaining() == o.Remaining() - scripted
            && (IsTerminal(p.status) || p.Remaining() > 0.0)
  {
  }

  /** A planned fill always books, keeps holdings covering open sells and the script within what is left. */
  lemma ExecuteSolid(cfg: Config, c: Core, at: int, event: Event, scripted: real, price: real)
    requires ValidConfig(cfg) && NoCoinFees(cfg) && Applying(cfg, c, at, event)
    requires event.Fill? && !IsTerminal(c.orders[event.orderId].status)
    requires 0.0 < scripted <= c.orders[event.orderId].Remaining()
    requires scripted == if event.qty.Some? then event.qty.value else c.orders[event.orderId].Remaining()
    ensures var r := Execute(cfg, c, event.orderId, at, scripted, price);
            && (r.Ok? ==> Solid(cfg, r.value))
            && (r.Err? ==> r.error == FillAfterBatchPosted)
  {
    hide AccrueFees, HoldingsAfterFill, Sane, OrdersOk, Committed, InOrder, ParkedQty, QueuedQty, WithFill, BookFill,
      Quiet, ScheduledBut, Scheduled, Covers, QuietEvent;
    var id := event.orderId;
    var o := WithFill(c.orders[id], at, scripted, price);
    QuietFacts(c, id);
    OrderFacts(c, id);
    InOrderFacts(c, at);
    FilledOrder(c.orders[id], FillRows(c.activities, id), at, scripted, price);
    FillBooks(c, id, at, scripted, price);
    ExecuteOrders(cfg, c, id, at, scripted, price);
    var executed := Executed(cfg, c, id, at, scripted, price);
    assert executed.orders == c.orders[id := o];
    assert scripted + c.orders[id].overfill == scripted;
    var paid := executed.(history := BookFill(c.history, o, at, scripted, price).value);
    var r := AccrueFees(cfg, paid, o, at, scripted, price, c.draws);
    assert Execute(cfg, c, id, at, scripted, price) == r;
    AccrueFeesQuiet(cfg, paid, o, at, scripted, price, c.draws);
    AccrueFeesWeight(cfg, paid, o, at, scripted, price, c.draws);
    if r.Ok? {
      ScheduledAfterFill(c, r.value, event, o, scripted);
      QuietAfterFill(c, r.value, id, o);
    }
  }

  lemma QuietFacts(c: Core, id: nat)
    requires Quiet(c) && id < |c.orders|
    ensures forall t :: t in c.queue ==> QuietEvent(t.event)
    ensures !c.orders[id].oversell && c.orders[id].overfill == 0.0 && c.orders[id].overfilled == 0.0
  {
  }

  lemma {:induction false} OrderFacts(c: Core, id: nat)
    requires OrdersOk(c) && id < |c.orders|
    ensures OrderOk(c.orders[id], FillRows(c.activities, id))
  {
  }

  lemma InOrderFacts(c: Core, at: int)
    requires InOrder(c, at)
    ensures c.history != [] && HistoryRising(c.history) && LastAt(c.history) <= at
  {
  }

  /** A status change that opens nothing and fills nothing. */
  lemma {:induction false} StatusSolid(cfg: Config, c: Core, event: Event, id: nat, o: Order)
    requires c.history != [] && id < |c.orders| && Sane(cfg, c) && OrdersOk(c) && Quiet(c) && ScheduledBut(c, event)
             && Covered(c)
    requires !IsTerminal(c.orders[id].status) && !event.Fill? && OrderOk(o, FillRows(c.activities, id))
    requires o == c.orders[id].(status := o.status, submittedAt := o.submittedAt, updatedAt := o.updatedAt,
                                canceledAt := o.canceledAt, expiredAt := o.expiredAt)
    ensures Solid(cfg, c.(orders := c.orders[id := o]))
  {
    var d := c.(orders := c.orders[id := o]);
    StatusOrders(cfg, c, id, o);
    forall i | 0 <= i < |d.orders| && !IsTerminal(d.orders[i].status)
      ensures ScriptedQty(d, i) <= d.orders[i].Remaining()
    {
      assert ScriptedQty(c, i) + EventQty(event, i) <= c.orders[i].Remaining();
    }
    forall symbol ensures Qty(d.history[|d.history| - 1].holdings, symbol) >= Committed(d.orders, symbol) {
      CommittedUpdate(c.orders, id, o, symbol);
    }
  }

  lemma RearmSolid(cfg: Config, c: Core, at: int, event: Event)
    requires Applying(cfg, c, at, event) && event.Fill? && !IsTerminal(c.orders[event.orderId].status)
    ensures Solid(cfg, Rearm(c, c.orders[event.orderId].instrument, at, event))
  {
    var k := c.orders[event.orderId].instrument;
    var d := Rearm(c, k, at, event);
    RearmSane(cfg, c, k, at, event);
    RearmQuiet(c, at, event);
    SameOrders(c, d);
    hide Committed, OrdersOk, Rearm, Quiet, InOrder, Sane, ScriptedQty;
    forall i | 0 <= i < |d.orders| && !IsTerminal(d.orders[i].status)
      ensures ScriptedQty(d, i) <= d.orders[i].Remaining()
    {
      assert ScriptedQty(c, i) + EventQty(event, i) <= c.orders[i].Remaining();
      RearmQty(c, at, event, i);
    }
  }

  lemma RearmQuiet(c: Core, at: int, event: Event)
    requires Quiet(c) && QuietEvent(event) && event.Fill? && event.orderId < |c.orders|
    ensures Quiet(Rearm(c, c.orders[event.orderId].instrument, at, event))
  {
    hide Later;
    var k := c.orders[event.orderId].instrument;
    var later := Later(SeriesOf(c.quotes, k), at);
    if later != [] { InsertMembers(c.queue, later[0].at, event); }
  }

  /** Re-arming or parking a fill keeps its quantity counted. */
  lemma RearmQty(c: Core, at: int, event: Event, i: nat)
    requires event.Fill? && event.orderId < |c.orders| && i < |c.orders|
    ensures var d := Rearm(c, c.orders[event.orderId].instrument, at, event);
            i < |d.orders| && (ScriptedQty(d, i) == ScriptedQty(c, i) + EventQty(event, i))
  {
    hide Later, Insert, QueuedQty, ParkedQty;
    var k := c.orders[event.orderId].instrument;
    var later := Later(SeriesOf(c.quotes, k), at);
    if later != [] { InsertQty(c.queue, later[0].at, event, i); }
    else { ParkedAppend(ParkedOn(c.parked, k), Waiting(at, event), i); }
  }

  lemma ChargedSolid(cfg: Config, c: Core, at: int, event: Event, row: Row, cashDelta: real)
    requires InOrder(c, at) && Sane(cfg, c) && OrdersOk(c) && Quiet(c) && ScheduledBut(c, event) && Covered(c)
    requires !event.Fill? && !row.FillRow?
    ensures var r := Charged(c, at, row, cashDelta, None); r.Ok? && Solid(cfg, r.value)
  {
    hide Committed, ParkedQty, QueuedQty;
    var r := Charged(c, at, row, cashDelta, None);
    StateAtEnd(c.history, at);
    var a := r.value.activities[|c.activities|];
    assert r.value.activities == c.activities + [a];
    forall i | 0 <= i < |c.orders| ensures FillRows(r.value.activities, i) == FillRows(c.activities, i) {
      FillRowsAppend(c.activities, a, i);
    }
    forall i | 0 <= i < |c.orders| && !IsTerminal(c.orders[i].status)
      ensures ScriptedQty(r.value, i) <= r.value.orders[i].Remaining()
    {
      assert ScriptedQty(c, i) + EventQty(event, i) <= c.orders[i].Remaining();
    }
  }

  lemma Settled(cfg: Config, c: Core, event: Event)
    requires c.history != [] && Sane(cfg, c) && OrdersOk(c) && Quiet(c) && ScheduledBut(c, event) && Covered(c)
    requires QuietEvent(event)
    ensures Solid(cfg, c)
  {
    forall i | 0 <= i < |c.orders| && !IsTerminal(c.orders[i].status)
      ensures ScriptedQty(c, i) <= c.orders[i].Remaining()
    {
      assert ScriptedQty(c, i) + EventQty(event, i) <= c.orders[i].Remaining();
    }
  }

  lemma ApplyFeeSolid(cfg: Config, c: Core, at: int, event: Event)
    requires Applying(cfg, c, at, event) && (event.PostBatch? || event.PostRow?) && cfg.fees.Some?
    ensures var r := ApplyFee(cfg, c, at, event); r.Ok? && Solid(cfg, r.value)
  {
    hide Charged, Committed, ScriptedQty, OrdersOk, InOrder;
    if event.PostRow? {
      ChargedSolid(cfg, c, at, event, SingleFeeRow(event.row), event.row.cashDelta);
    } else {
      InOrderFacts(c, at);
      var b := c.batches[event.key];
      var posted := c.(batches := c.batches[event.key := b.(posted := true)]);
      PostedStillApplying(cfg, c, at, event);
      var amount := cfg.fees.value.rates.cents(b.amount);
      if amount > 0.0 {
        ChargedSolid(cfg, posted, at, event, BatchRow(event.key, -amount), -amount);
      } else {
        Settled(cfg, posted, event);
      }
    }
  }

  lemma PostedStillApplying(cfg: Config, c: Core, at: int, event: Event)
    requires Applying(cfg, c, at, event) && event.PostBatch?
    ensures Applying(cfg, c.(batches := c.batches[event.key := c.batches[event.key].(posted := true)]), at, event)
  {
    var d := c.(batches := c.batches[event.key := c.batches[event.key].(posted := true)]);
    forall i | 0 <= i < |d.orders| && !IsTerminal(d.orders[i].status)
      ensures ScriptedQty(d, i) + EventQty(event, i) <= d.orders[i].Remaining()
    {
      assert ScriptedQty(d, i) == ScriptedQty(c, i);
    }
  }

  lemma ApplySolid(cfg: Config, c: Core, at: int, event: Event)
    requires ValidConfig(cfg) && NoCoinFees(cfg) && Applying(cfg, c, at, event)
    requires cfg.fees.None? ==> !event.PostBatch? && !event.PostRow?
    ensures var r := Apply(cfg, c, at, event);
            && (r.Ok? ==> Solid(cfg, r.value))
            && (r.Err? ==> ExpectedError(r.error))
  {
    hide Execute, ApplyFee, Rearm, Committed, ScriptedQty;
    if event.PostBatch? || event.PostRow? {
      ApplyFeeSolid(cfg, c, at, event);
    } else {
      var id := event.orderId;
      var o := c.orders[id];
      OrderFacts(c, id);
      if IsTerminal(o.status) {
        Settled(cfg, c, event);
      } else {
        match event {
          case Start(_) => StatusSolid(cfg, c, event, id, o.(status := New, submittedAt := Some(at), updatedAt := at));
          case Terminal(_, status) => StatusSolid(cfg, c, event, id, Finished(o, status, at));
          case Expire(_) => StatusSolid(cfg, c, event, id, Finished(o, cfg.dayEnd, at));
          case Fill(_, _, _) =>
            FitsOrder(c, event, o);
            var plan := PlanFill(c.quotes, o, at, event);
            if plan.Wait? { RearmSolid(cfg, c, at, event); }
            else if plan.Take? { ExecuteSolid(cfg, c, at, event, plan.scripted, plan.price); }
        }
      }
    }
  }

  lemma {:induction false} DrainSolid(cfg: Config, c: Core, floor: int, now: int)
    requires ValidConfig(cfg) && NoCoinFees(cfg) && DelaysOk(cfg) && InOrder(c, floor) && floor <= now && Solid(cfg, c)
    ensures var r := Drain(cfg, c, now);
            && (r.Ok? ==> Solid(cfg, r.value))
            && (r.Err? ==> ExpectedError(r.error))
    decreases Weight(c)
  {
    hide ScriptedQty, Committed, OrdersOk;
    if c.queue != [] && c.queue[0].at <= now {
      var head := c.queue[0];
      assert head in c.queue;
      PoppedInOrder(c, floor);
      PoppedScheduled(c);
      SameOrders(c, Popped(c));
      ApplySolid(cfg, Popped(c), head.at, head.event);
      ApplyInOrder(cfg, Popped(c), head.at, head.event);
      ApplyShrinks(cfg, Popped(c), head.at, head.event);
      var next := Apply(cfg, Popped(c), head.at, head.event);
      if next.Ok? { DrainSolid(cfg, next.value, head.at, now); }
    }
  }

  // ---- whole calls ----

  ghost predicate PositiveScripts(scripts: map<string, Script>) {
    forall s :: s in scripts ==> forall i :: 0 <= i < |scripts[s].fills| ==> scripts[s].fills[i].qty > 0.0
  }

  ghost predicate SoundWorld(cfg: Config, w: World) {
    WorldOk(cfg, w) && TimelineOk(w) && Solid(cfg, w.core) && w.overfillPending == 0.0 && PositiveScripts(w.scripts)
  }

  lemma MaterializeSolid(cfg: Config, w: World, now: int)
    requires ValidConfig(cfg) && NoCoinFees(cfg) && DelaysOk(cfg) && SoundWorld(cfg, w) && Floor(w) <= now
    ensures var r := Materialize(cfg, w, now);
            && (r.Ok? ==> SoundWorld(cfg, r.value) && r.value.materializedAt == Some(now))
            && (r.Err? ==> ExpectedError(r.error))
  {
    hide Drain, InOrder, Solid, WorldOk, TimelineOk;
    assert InOrder(w.core, Floor(w)) && w.core.history != [] by { TimelineFacts(w); }
    MaterializeOk(cfg, w, now);
    MaterializeTimeline(cfg, w, now);
    DrainSolid(cfg, w.core, Floor(w), now);
  }

  lemma TimelineFacts(w: World)
    requires TimelineOk(w)
    ensures w.core.history != [] && InOrder(w.core, Floor(w)) && LastAt(w.core.history) <= Floor(w)
  {
  }

  // ---- placing ----

  lemma {:induction false} PushQuiet(c: Core, at: int, event: Event, i: nat)
    requires Quiet(c) && QuietEvent(event)
    ensures Quiet(Push(c, at, event))
            && QueuedQty(Push(c, at, event).queue, i) == QueuedQty(c.queue, i) + EventQty(event, i)
  {
    InsertMembers(c.queue, at, event);
    InsertQty(c.queue, at, event, i);
  }

  lemma {:induction false} PushFillsQuiet(c: Core, start: int, id: nat, fills: seq<ScriptedFill>, i: nat)
    requires Quiet(c) && forall j :: 0 <= j < |fills| ==> fills[j].qty > 0.0
    ensures var r := PushFills(c, start, id, fills);
            Quiet(r) && QueuedQty(r.queue, i) == QueuedQty(c.queue, i) + (if i == id then TotalQty(fills) else 0.0)
    decreases |fills|
  {
    hide Quiet, Push;
    if fills != [] {
      var event := Fill(id, Some(fills[0].qty), fills[0].price);
      PushQuiet(c, start + fills[0].offset, event, i);
      PushFillsQuiet(Push(c, start + fills[0].offset, event), start, id, fills[1..], i);
    }
  }

  /** Scheduling an order queues exactly its script's quantity for it, and nothing for any other. */
  lemma {:induction false} ScheduleQuiet(cfg: Config, c: Core, id: nat, openNow: bool, start: int, script: Script,
                                         expires: bool, i: nat)
    requires Quiet(c) && forall j :: 0 <= j < |script.fills| ==> script.fills[j].qty > 0.0
    ensures var r := ScheduleOrder(cfg, c, id, openNow, start, script, expires);
            Quiet(r) && QueuedQty(r.queue, i)
              == QueuedQty(c.queue, i) + (if i == id then TotalQty(script.fills) else 0.0)
  {
    hide Quiet, Push, PushFills, NextClose;
    var started := if openNow then c else Push(c, start, Start(id));
    PushQuiet(c, start, Start(id), i);
    var pushed := PushFills(started, start, id, script.fills);
    PushFillsQuiet(started, start, id, script.fills, i);
    var filled :=
      if script.fills != [] then
        if script.terminal != Filled
        then Push(pushed, start + script.fills[|script.fills| - 1].offset, Terminal(id, script.terminal)) else pushed
      else if script.terminal == Filled then Push(started, start + cfg.fillLatency, Fill(id, None, None))
      else started;
    if script.fills != [] && script.terminal != Filled {
      PushQuiet(pushed, start + script.fills[|script.fills| - 1].offset, Terminal(id, script.terminal), i);
    }
    PushQuiet(started, start + cfg.fillLatency, Fill(id, None, None), i);
    var close := NextClose(cfg.session, start);
    if close.Some? { PushQuiet(filled, close.value, Expire(id), i); }
  }

  /** A clean order whose script fits joins the book without breaking anything, before its events are queued. */
  lemma JoinedSolid(cfg: Config, c: Core, o: Order, draws: nat, now: int)
    requires Solid(cfg, c) && HistoryRising(c.history) && LastAt(c.history) <= now
    requires o.qty > 0.0 && o.filledQty == 0.0 && IsOpenStatus(o.status) && o.overfill == 0.0 && o.overfilled == 0.0
             && !o.oversell
    requires o.avgPrice == None && o.fillEvents == 0
    requires o.side == Sell ==>
             o.qty <= Qty(StateAt(c.history, now).holdings, o.instrument.symbol)
                      - Committed(c.orders, o.instrument.symbol)
    ensures var d := c.(orders := c.orders + [o], draws := draws);
            Quiet(d) && Covered(d) && Scheduled(d) && ScriptedQty(d, |c.orders|) == 0.0
  {
    var d := c.(orders := c.orders + [o], draws := draws);
    var id := |c.orders|;
    StateAtEnd(c.history, now);
    forall symbol ensures Qty(d.history[|d.history| - 1].holdings, symbol) >= Committed(d.orders, symbol) {
      CommittedAppend(c.orders, o, symbol);
      assert Qty(c.history[|c.history| - 1].holdings, symbol) >= Committed(c.orders, symbol);
    }
    UnknownOrderQueuesNothing(c.queue, id, c.batches);
    ParkedElsewhere(ParkedOn(c.parked, o.instrument), id);
    hide Committed, OrdersOk, Sane, QueuedQty, ParkedQty;
    forall i | 0 <= i < |d.orders| && !IsTerminal(d.orders[i].status)
      ensures ScriptedQty(d, i) <= d.orders[i].Remaining()
    {
      if i < id { assert ScriptedQty(c, i) <= c.orders[i].Remaining(); }
    }
  }

  lemma BookedSolid(cfg: Config, w: World, now: int, r: Request, openNow: bool, start: int)
    requires SoundWorld(cfg, w) && w.materializedAt == Some(now) && RefusalCode(cfg, w, now, r).None? && !r.oversell
    requires ScriptFor(w, r.client).fills != [] ==> TotalQty(ScriptFor(w, r.client).fills) <= r.qty
    ensures Solid(cfg, Booked(cfg, w, now, r, openNow, start))
  {
    hide ScheduleOrder, Sane, OrdersOk, Committed, QueuedQty, ParkedQty, SoundWorld, InOrder, Quiet, StateAt,
      Covered;
    var o, id := NewOrder(cfg, w, now, r, openNow), |w.core.orders|;
    var draws := w.core.draws + (if r.client == "" then 2 else 1);
    var script, expires := ScriptFor(w, r.client), r.day && r.instrument.assetClass != Crypto;
    var core := w.core.(orders := w.core.orders + [o], draws := draws);
    SoundFacts(cfg, w, now, r.client);
    JoinedSolid(cfg, w.core, o, draws, now);
    BookedOk(cfg, w, now, r, openNow, start);
    var booked := Booked(cfg, w, now, r, openNow, start);
    ScheduleKeeps(cfg, core, id, openNow, start, script, expires);
    assert TotalQty(script.fills) <= r.qty;
    hide RefusalCode, TotalQty;
    ScheduleQuiet(cfg, core, id, openNow, start, script, expires, id);
    assert booked.history == core.history;
    SameCover(core, booked);
    forall i | 0 <= i < |booked.orders| && !IsTerminal(booked.orders[i].status)
      ensures ScriptedQty(booked, i) <= booked.orders[i].Remaining()
    {
      ScheduleQuiet(cfg, core, id, openNow, start, script, expires, i);
      assert ScriptedQty(core, i) <= core.orders[i].Remaining();
    }
  }

  /** What a sound world brings to a booking. */
  lemma SoundFacts(cfg: Config, w: World, now: int, client: string)
    requires SoundWorld(cfg, w) && w.materializedAt == Some(now)
    ensures WorldOk(cfg, w) && Solid(cfg, w.core) && w.overfillPending == 0.0
    ensures w.core.history != [] && HistoryRising(w.core.history) && LastAt(w.core.history) <= now
    ensures var fills := ScriptFor(w, client).fills; forall j :: 0 <= j < |fills| ==> fills[j].qty > 0.0
  {
    hide Solid, WorldOk;
  }

  lemma SameCover(c: Core, d: Core)
    requires c.history != [] && Covered(c) && d.history == c.history && d.orders == c.orders
    ensures Covered(d)
  {
  }

  lemma PlaceSolid(cfg: Config, w: World, now: int, r: Request)
    requires SoundWorld(cfg, w) && w.materializedAt == Some(now) && !r.oversell
    ensures var s := PlaceOrder(cfg, w, now, r).world;
            Solid(cfg, s.core) && s.overfillPending == 0.0 && PositiveScripts(s.scripts)
  {
    hide Booked, RefusalCode, TotalQty, Solid, WorldOk, InOrder;
    var openNow := r.instrument.assetClass == Crypto || IsOpen(cfg.session, now);
    var start := if openNow then Some(now) else NextOpen(cfg.session, now);
    if PlaceOrder(cfg, w, now, r).answer.Placed? { BookedSolid(cfg, w, now, r, openNow, start.value); }
  }

  // ---- the other calls ----

  lemma {:induction false} RearmedQuiet(queue: seq<Timed>, at: int, waiting: seq<Waiting>)
    requires (forall t :: t in queue ==> QuietEvent(t.event)) && (forall x :: x in waiting ==> QuietEvent(x.event))
    ensures forall t :: t in Rearmed(queue, at, waiting) ==> QuietEvent(t.event)
    decreases |waiting|
  {
    if waiting != [] {
      assert waiting[0] in waiting;
      InsertMembers(queue, MaxInt(at, waiting[0].since), waiting[0].event);
      RearmedQuiet(Insert(queue, MaxInt(at, waiting[0].since), waiting[0].event), at, waiting[1..]);
    }
  }

  /** A quote moves parked quantities back into the queue. */
  lemma QuoteSolid(cfg: Config, c: Core, k: Instrument, q: Quote)
    requires Solid(cfg, c)
    ensures Solid(cfg, WithQuote(c, k, q))
  {
    var d := WithQuote(c, k, q);
    WithQuoteOk(cfg, c, k, q);
    RearmedQuiet(c.queue, q.at, ParkedOn(c.parked, k));
    hide Committed, OrdersOk, Sane, QueuedQty, Rearmed, SeriesOf;
    forall i | 0 <= i < |d.orders| && !IsTerminal(d.orders[i].status)
      ensures ScriptedQty(d, i) <= d.orders[i].Remaining()
    {
      assert ScriptedQty(c, i) <= c.orders[i].Remaining();
      RearmedQty(c.queue, q.at, ParkedOn(c.parked, k), i);
      if c.orders[i].instrument != k { ParkedElsewhere(ParkedOn(c.parked, k), i); }
    }
  }

  lemma SeedSolid(cfg: Config, c: Core, now: int, cmd: Command)
    requires Solid(cfg, c) && HistoryRising(c.history) && LastAt(c.history) <= now
    requires cmd.SeedPosition? && cmd.qty >= 0.0 && cmd.symbol !in StateAt(c.history, now).holdings
    ensures Solid(cfg, SeedCore(c, now, cmd))
  {
    hide Committed;
    var d := SeedCore(c, now, cmd);
    StateAtEnd(c.history, now);
    SameOrders(c, d);
    forall symbol ensures Qty(d.history[|d.history| - 1].holdings, symbol) >= Committed(d.orders, symbol) {
      assert Qty(c.history[|c.history| - 1].holdings, symbol) >= Committed(c.orders, symbol);
    }
    hide OrdersOk, Sane, Quiet;
    forall i | 0 <= i < |d.orders| && !IsTerminal(d.orders[i].status)
      ensures ScriptedQty(d, i) <= d.orders[i].Remaining()
    {
      assert ScriptedQty(c, i) <= c.orders[i].Remaining();
    }
  }

  lemma CancelSolid(cfg: Config, w: World, now: int, id: nat)
    requires SoundWorld(cfg, w)
    ensures var s := CancelOrder(cfg, w, now, id); s.Ok? && Solid(cfg, s.value.world.core)
  {
    hide AllSound, Solid;
    CancelOk(cfg, w, now, id);
    if id < |w.core.orders| && !IsTerminal(w.core.orders[id].status) {
      CanceledSolid(cfg, w.core, now, id);
    }
  }

  lemma CanceledSolid(cfg: Config, c: Core, now: int, id: nat)
    requires Solid(cfg, c) && id < |c.orders| && !IsTerminal(c.orders[id].status)
    ensures Solid(cfg, c.(orders := c.orders[id := Finished(c.orders[id], Canceled, now)]))
  {
    OrderFacts(c, id);
    forall i | 0 <= i < |c.orders| && !IsTerminal(c.orders[i].status)
      ensures ScriptedQty(c, i) + EventQty(Start(id), i) <= c.orders[i].Remaining()
    {
    }
    StatusSolid(cfg, c, Start(id), id, Finished(c.orders[id], Canceled, now));
  }

  lemma ActSolid(cfg: Config, w: World, now: int, cmd: Command)
    requires SoundWorld(cfg, w) && w.materializedAt == Some(now) && Materializes(cmd) && FaultFree(cmd)
    ensures var s := Act(cfg, w, now, cmd);
            s.Ok? && Solid(cfg, s.value.world.core) && s.value.world.overfillPending == 0.0
              && PositiveScripts(s.value.world.scripts)
  {
    hide PlaceOrder, CancelOrder, Solid, WorldOk;
    TimelineFacts(w);
    match cmd {
      case Read =>
      case SeedPosition(symbol, _, _, _, _) =>
        if symbol !in StateAt(w.core.history, now).holdings { SeedSolid(cfg, w.core, now, cmd); }
      case Place(r) => PlaceSolid(cfg, w, now, r);
      case Cancel(id) => CancelSolid(cfg, w, now, id); CancelFrame(cfg, w, now, id);
    }
  }

  lemma CancelFrame(cfg: Config, w: World, now: int, id: nat)
    ensures var s := CancelOrder(cfg, w, now, id);
            s.Ok? ==> s.value.world.overfillPending == w.overfillPending && s.value.world.scripts == w.scripts
  {
  }

  lemma ConfigureSolid(cfg: Config, w: World, cmd: Command)
    requires SoundWorld(cfg, w) && !Materializes(cmd) && FaultFree(cmd)
    ensures var s := Configure(w, cmd).world;
            Solid(cfg, s.core) && s.overfillPending == 0.0 && PositiveScripts(s.scripts)
  {
    hide Solid, WithQuote, WorldOk, TimelineOk;
    if cmd.SetQuote? { QuoteSolid(cfg, w.core, cmd.instrument, cmd.quote); }
  }

  lemma StepSolid(cfg: Config, w: World, now: int, cmd: Command)
    requires ValidConfig(cfg) && NoCoinFees(cfg) && DelaysOk(cfg) && SoundWorld(cfg, w) && Floor(w) <= now
             && FaultFree(cmd)
    ensures var s := Step(cfg, w, now, cmd);
            && (s.Ok? ==> SoundWorld(cfg, s.value.world) && Floor(s.value.world) <= now)
            && (s.Err? ==> ExpectedError(s.error))
  {
    hide Solid, WorldOk, TimelineOk, Configure, Act, PositiveScripts, Floor, Materialize;
    TimelineFacts(w);
    StepOk(cfg, w, now, cmd);
    StepTimeline(cfg, w, now, cmd);
    if Materializes(cmd) {
      MaterializeSolid(cfg, w, now);
      if Materialize(cfg, w, now).Ok? { ActSolid(cfg, Materialize(cfg, w, now).value, now, cmd); }
    } else {
      ConfigureSolid(cfg, w, cmd);
    }
  }

  /** Over every fault-free script: no read, placement or cancel ever reports an oversell, an overfill or an overdrawn
      fee, and the position always covers what open sells have left. */
  lemma {:induction false} ScriptErrorsUnreachable(cfg: Config, w: World, script: seq<Call>)
    requires ValidConfig(cfg) && NoCoinFees(cfg) && DelaysOk(cfg) && SoundWorld(cfg, w)
             && ClockForward(Floor(w), script)
    requires forall call :: call in script ==> FaultFree(call.cmd)
    ensures var r := Run(cfg, w, script);
            && (r.Ok? ==> r.value.world.core.history != [] && Covered(r.value.world.core)
                          && Scheduled(r.value.world.core))
            && (r.Err? ==> r.error == NoUsableQuote || r.error == WorseThanLimit || r.error == FillAfterBatchPosted)
    decreases |script|
  {
    hide WorldOk, TimelineOk, Step, PositiveScripts, Covered, Scheduled;
    if script != [] {
      assert script[0] in script;
      StepSolid(cfg, w, script[0].now, script[0].cmd);
      var s := Step(cfg, w, script[0].now, script[0].cmd);
      if s.Ok? {
        ClockEarlier(Floor(s.value.world), script[0].now, script[1..]);
        ScriptErrorsUnreachable(cfg, s.value.world, script[1..]);
      }
    }
  }

  lemma FreshSound(cfg: Config, createdAt: int, cash: real)
    ensures SoundWorld(cfg, Fresh(createdAt, cash))
  {
  }
}
