/** The order invariants hold after every call, so the simulator's own check never fires;
    filled quantities only grow and terminal orders never change. */
module SimulatorOrders {
  import opened Common
  import opened TradingSession
  import opened SimulatorModel
  import opened SimulatorCommands

  // ---- what the queue may hold ----

  /** An event the simulator could have queued: a known order or batch, and no scripted terminal that fills. */
  predicate SaneEvent(event: Event, orders: nat, batches: map<BatchKey, Batch>) {
    match event
    case Start(id) => id < orders
    case Fill(id, _, _) => id < orders
    case Terminal(id, status) => id < orders && (status == Canceled || status == Expired)
    case Expire(id) => id < orders
    case PostBatch(key) => key in batches
    case PostRow(_) => true
  }

  predicate SaneQueue(queue: seq<Timed>, orders: nat, batches: map<BatchKey, Batch>) {
    forall t :: t in queue ==> SaneEvent(t.event, orders, batches)
  }

  predicate SaneParked(parked: map<Instrument, seq<Waiting>>, orders: nat) {
    forall k, w :: k in parked && w in parked[k] ==> w.event.Fill? && w.event.orderId < orders
  }

  predicate SaneRows(activities: seq<Activity>, orders: nat) {
    forall a :: a in activities && a.row.FillRow? ==> a.row.orderId < orders
  }

  predicate FeesConfigured(cfg: Config, queue: seq<Timed>) {
    cfg.fees.None? ==> forall t :: t in queue ==> !t.event.PostBatch? && !t.event.PostRow?
  }

  ghost predicate Sane(cfg: Config, c: Core) {
    && SaneQueue(c.queue, |c.orders|, c.batches)
    && SaneParked(c.parked, |c.orders|)
    && SaneRows(c.activities, |c.orders|)
    && FeesConfigured(cfg, c.queue)
  }

  lemma {:induction false} InsertMembers(queue: seq<Timed>, at: int, event: Event)
    ensures forall t :: t in Insert(queue, at, event) <==> t in queue || t == Timed(at, event)
  {
    if queue != [] && at >= queue[0].at {
      InsertMembers(queue[1..], at, event);
      assert queue == [queue[0]] + queue[1..];
    }
  }

  // ---- one order ----

  predicate OrderOk(o: Order, fillRows: nat) {
    && o.qty > 0.0 && o.overfill >= 0.0 && o.overfilled >= 0.0
    && 0.0 <= o.filledQty <= o.qty + o.overfilled
    && (o.filledQty != 0.0 ==> o.avgPrice == Some(o.notional / o.filledQty))
    && (o.filledQty == 0.0 ==> o.avgPrice == None)
    && fillRows == o.fillEvents
    && (o.status == Filled <==> o.filledQty >= o.qty)
  }

  ghost predicate OrdersOk(c: Core) {
    forall i :: 0 <= i < |c.orders| ==> OrderOk(c.orders[i], FillRows(c.activities, i))
  }

  /** Nothing is forgotten: orders stay, fills only grow, a terminal order is frozen. */
  ghost predicate Progress(before: seq<Order>, after: seq<Order>) {
    && |before| <= |after|
    && forall i :: 0 <= i < |before| ==>
         before[i].filledQty <= after[i].filledQty && (IsTerminal(before[i].status) ==> after[i] == before[i])
  }

  lemma ProgressTrans(a: seq<Order>, b: seq<Order>, c: seq<Order>)
    requires Progress(a, b) && Progress(b, c)
    ensures Progress(a, c)
  {
    forall i | 0 <= i < |a|
      ensures a[i].filledQty <= c[i].filledQty && (IsTerminal(a[i].status) ==> c[i] == a[i])
    {
      assert b[i].filledQty <= c[i].filledQty;
    }
  }

  lemma {:induction false} FillRowsAppend(activities: seq<Activity>, a: Activity, id: nat)
    ensures FillRows(activities + [a], id)
         == FillRows(activities, id) + (if a.row.FillRow? && a.row.orderId == id then 1 else 0)
  {
    if activities == [] {
      assert [] + [a] == [a];
    } else {
      assert (activities + [a])[1..] == activities[1..] + [a];
      FillRowsAppend(activities[1..], a, id);
    }
  }

  lemma {:induction false} NoRowsYet(activities: seq<Activity>, id: nat)
    requires SaneRows(activities, id)
    ensures FillRows(activities, id) == 0
  {
    if activities != [] {
      assert activities[0] in activities;
      NoRowsYet(activities[1..], id);
    }
  }

  lemma FilledOrderOk(o: Order, fillRows: nat, at: int, scripted: real, price: real)
    requires OrderOk(o, fillRows) && !IsTerminal(o.status) && 0.0 < scripted <= o.Remaining()
    ensures OrderOk(WithFill(o, at, scripted, price), fillRows + 1)
    ensures WithFill(o, at, scripted, price).filledQty > o.filledQty
  {
  }

  /** The errors a scenario can cause; the others would be the simulator's own bugs. */
  predicate ScriptFault(e: ScriptError) {
    e != InvariantViolated && e != UnknownOrder && e != NoFeeRates
  }

  // ---- one event ----

  lemma {:induction false} AccrueAllSane(cfg: Config, c: Core, at: int, charges: seq<Charge>)
    requires cfg.fees.Some? && Sane(cfg, c)
    ensures var r := AccrueAll(cfg, c, at, charges);
            && (r.Ok? ==> Sane(cfg, r.value) && r.value == c.(queue := r.value.queue, batches := r.value.batches))
            && (r.Err? ==> ScriptFault(r.error))
    decreases |charges|
  {
    if charges != [] {
      var x := charges[0];
      var postsAt := PostsAt(cfg, x.key);
      var r := Accrue(c, at, x.key, postsAt, x.amount, x.proceeds, x.units);
      InsertMembers(c.queue, postsAt, PostBatch(x.key));
      if r.Ok? {
        assert c.batches.Keys <= r.value.batches.Keys;
        forall t | t in r.value.queue
          ensures SaneEvent(t.event, |c.orders|, r.value.batches)
        {
          assert t in c.queue || t == Timed(postsAt, PostBatch(x.key));
        }
        AccrueAllSane(cfg, r.value, at, charges[1..]);
      }
    }
  }

  lemma AccrueFeesSane(cfg: Config, c: Core, o: Order, at: int, qty: real, price: real, suffix: nat)
    requires Sane(cfg, c)
    ensures var r := AccrueFees(cfg, c, o, at, qty, price, suffix);
            && (r.Ok? ==> Sane(cfg, r.value) && r.value == c.(queue := r.value.queue, batches := r.value.batches))
            && (r.Err? ==> ScriptFault(r.error))
  {
    if cfg.fees.Some? {
      var own := OwnFee(cfg, o, at, qty, price, suffix);
      var queued := if own.Some? then Push(c, own.value.at, own.value.event) else c;
      if own.Some? {
        InsertMembers(c.queue, own.value.at, own.value.event);
      }
      AccrueAllSane(cfg, queued, at, Charges(cfg, o, at, qty, price));
    }
  }

  lemma ExecutedOrders(cfg: Config, c: Core, id: nat, at: int, scripted: real, price: real)
    requires id < |c.orders| && Sane(cfg, c) && OrdersOk(c)
    requires !IsTerminal(c.orders[id].status) && 0.0 < scripted <= c.orders[id].Remaining()
    ensures var r := Executed(cfg, c, id, at, scripted, price);
            Sane(cfg, r) && OrdersOk(r) && Progress(c.orders, r.orders)
  {
    var executed := Executed(cfg, c, id, at, scripted, price);
    var a := executed.activities[|c.activities|];
    assert executed.activities == c.activities + [a];
    FilledOrderOk(c.orders[id], FillRows(c.activities, id), at, scripted, price);
    forall i | 0 <= i < |c.orders|
      ensures OrderOk(executed.orders[i], FillRows(executed.activities, i))
    {
      FillRowsAppend(c.activities, a, i);
      assert OrderOk(c.orders[i], FillRows(c.activities, i));
    }
  }

  lemma ExecuteOrders(cfg: Config, c: Core, id: nat, at: int, scripted: real, price: real)
    requires c.history != [] && id < |c.orders| && Sane(cfg, c) && OrdersOk(c)
    requires !IsTerminal(c.orders[id].status) && 0.0 < scripted <= c.orders[id].Remaining()
    ensures var r := Execute(cfg, c, id, at, scripted, price);
            && (r.Ok? ==> Sane(cfg, r.value) && OrdersOk(r.value) && Progress(c.orders, r.value.orders))
            && (r.Err? ==> ScriptFault(r.error))
  {
    hide WithFill, AccrueFees, HoldingsAfterFill, OrdersOk, Progress, StateAt;
    ExecutedOrders(cfg, c, id, at, scripted, price);
    var executed := Executed(cfg, c, id, at, scripted, price);
    var o := executed.orders[id];
    var qty := scripted + c.orders[id].overfill;
    var booked := BookFill(c.history, o, at, qty, price);
    if booked.Ok? {
      var paid := executed.(history := booked.value);
      SameOrders(executed, paid);
      AccrueFeesSane(cfg, paid, o, at, qty, price, c.draws);
      var r := AccrueFees(cfg, paid, o, at, qty, price, c.draws);
      if r.Ok? { SameOrders(paid, r.value); }
    }
  }

  lemma RearmSane(cfg: Config, c: Core, k: Instrument, at: int, event: Event)
    requires Sane(cfg, c) && event.Fill? && event.orderId < |c.orders|
    ensures Sane(cfg, Rearm(c, k, at, event))
  {
    var later := Later(SeriesOf(c.quotes, k), at);
    if later != [] {
      InsertMembers(c.queue, later[0].at, event);
    }
  }

  lemma ApplyFeeOrders(cfg: Config, c: Core, at: int, event: Event)
    requires c.history != [] && (event.PostBatch? || event.PostRow?) && Sane(cfg, c) && OrdersOk(c)
    requires cfg.fees.Some? && (event.PostBatch? ==> event.key in c.batches)
    ensures var r := ApplyFee(cfg, c, at, event);
            && (r.Ok? ==> Sane(cfg, r.value) && OrdersOk(r.value) && r.value.orders == c.orders)
            && (r.Err? ==> ScriptFault(r.error))
  {
    var r := ApplyFee(cfg, c, at, event);
    if r.Ok? && r.value.activities != c.activities {
      var a := r.value.activities[|c.activities|];
      assert r.value.activities == c.activities + [a] && !a.row.FillRow?;
      forall i | 0 <= i < |c.orders| ensures FillRows(r.value.activities, i) == FillRows(c.activities, i) {
        FillRowsAppend(c.activities, a, i);
      }
    }
  }

  lemma {:induction false} StatusOrders(cfg: Config, c: Core, id: nat, o: Order)
    requires id < |c.orders| && Sane(cfg, c) && OrdersOk(c) && !IsTerminal(c.orders[id].status)
    requires o.filledQty == c.orders[id].filledQty && OrderOk(o, FillRows(c.activities, id))
    ensures var r := c.(orders := c.orders[id := o]); Sane(cfg, r) && OrdersOk(r) && Progress(c.orders, r.orders)
  {
  }

  lemma ApplyFillOrders(cfg: Config, c: Core, at: int, event: Event)
    requires c.history != [] && Sane(cfg, c) && OrdersOk(c) && event.Fill? && event.orderId < |c.orders|
    requires !IsTerminal(c.orders[event.orderId].status)
    ensures var r := ApplyFill(cfg, c, at, event);
            && (r.Ok? ==> Sane(cfg, r.value) && OrdersOk(r.value) && Progress(c.orders, r.value.orders))
            && (r.Err? ==> ScriptFault(r.error))
  {
    var plan := PlanFill(c.quotes, c.orders[event.orderId], at, event);
    if plan.Wait? {
      RearmSane(cfg, c, c.orders[event.orderId].instrument, at, event);
    } else if plan.Take? {
      ExecuteOrders(cfg, c, event.orderId, at, plan.scripted, plan.price);
    }
  }

  /** One event keeps every order invariant, moves fills forward only and leaves terminal orders alone. */
  lemma ApplyOrders(cfg: Config, c: Core, at: int, event: Event)
    requires ValidConfig(cfg) && c.history != []
    requires Sane(cfg, c) && OrdersOk(c) && SaneEvent(event, |c.orders|, c.batches)
    requires cfg.fees.None? ==> !event.PostBatch? && !event.PostRow?
    ensures var r := Apply(cfg, c, at, event);
            && (r.Ok? ==> Sane(cfg, r.value) && OrdersOk(r.value) && Progress(c.orders, r.value.orders))
            && (r.Err? ==> ScriptFault(r.error))
  {
    if event.PostBatch? || event.PostRow? {
      ApplyFeeOrders(cfg, c, at, event);
    } else if !IsTerminal(c.orders[event.orderId].status) {
      var id := event.orderId;
      var o := c.orders[id];
      match event
      case Fill(_, _, _) => ApplyFillOrders(cfg, c, at, event);
      case Start(_) => StatusOrders(cfg, c, id, o.(status := New, submittedAt := Some(at), updatedAt := at));
      case Terminal(_, status) => StatusOrders(cfg, c, id, Finished(o, status, at));
      case Expire(_) => StatusOrders(cfg, c, id, Finished(o, cfg.dayEnd, at));
    }
  }

  lemma {:induction false} DrainOrders(cfg: Config, c: Core, now: int)
    requires ValidConfig(cfg) && c.history != [] && Sane(cfg, c) && OrdersOk(c)
    ensures var r := Drain(cfg, c, now);
            && (r.Ok? ==> Sane(cfg, r.value) && OrdersOk(r.value) && Progress(c.orders, r.value.orders))
            && (r.Err? ==> ScriptFault(r.error))
    decreases Weight(c)
  {
    if c.queue != [] && c.queue[0].at <= now {
      var head := c.queue[0];
      assert head in c.queue;
      assert Sane(cfg, Popped(c));
      ApplyOrders(cfg, Popped(c), head.at, head.event);
      ApplyShrinks(cfg, Popped(c), head.at, head.event);
      var next := Apply(cfg, Popped(c), head.at, head.event);
      if next.Ok? {
        DrainOrders(cfg, next.value, now);
        if Drain(cfg, next.value, now).Ok? {
          ProgressTrans(c.orders, next.value.orders, Drain(cfg, next.value, now).value.orders);
        }
      }
    }
  }

  // ---- whole calls ----

  /** What the check remembers agrees with the orders, whenever the check last ran. */
  ghost predicate ChecksOk(orders: seq<Order>, checks: seq<Check>) {
    && |checks| == |orders|
    && forall i :: 0 <= i < |orders| ==>
         && checks[i].filledQty <= orders[i].filledQty
         && (checks[i].snapshot.Some? ==>
            IsTerminal(orders[i].status) && checks[i].snapshot.value == ReportOf(orders[i]))
  }

  ghost predicate WorldOk(cfg: Config, w: World) {
    && w.core.history != []
    && Sane(cfg, w.core) && OrdersOk(w.core)
    && ChecksOk(w.core.orders, w.checks)
    && w.overfillPending >= 0.0
    && (forall s :: s in w.scripts ==> w.scripts[s].terminal == Filled || w.scripts[s].terminal == Canceled
                                       || w.scripts[s].terminal == Expired)
    && (forall id :: id in w.clients ==> w.clients[id] < |w.core.orders|)
  }

  /** The check passes on every sound world, and remembers what it saw. */
  lemma CheckPasses(w: World)
    requires w.core.history != [] && OrdersOk(w.core) && ChecksOk(w.core.orders, w.checks)
    ensures CheckInvariants(w).Ok? && ChecksOk(w.core.orders, CheckInvariants(w).value.checks)
  {
    forall i | 0 <= i < |w.core.orders|
      ensures OrderSound(w.core.orders[i], FillRows(w.core.activities, i), w.checks[i])
    {
      assert OrderOk(w.core.orders[i], FillRows(w.core.activities, i));
    }
  }

  lemma ProgressChecks(before: seq<Order>, after: seq<Order>, checks: seq<Check>)
    requires |before| == |after| && Progress(before, after) && ChecksOk(before, checks)
    ensures ChecksOk(after, checks)
  {
    forall i | 0 <= i < |after|
      ensures checks[i].filledQty <= after[i].filledQty
      ensures checks[i].snapshot.Some? ==> IsTerminal(after[i].status) && checks[i].snapshot.value == ReportOf(after[i])
    {
      assert before[i].filledQty <= after[i].filledQty;
    }
  }

  lemma {:induction false} DrainKeepsOrderCount(cfg: Config, c: Core, now: int)
    requires c.history != []
    ensures Drain(cfg, c, now).Ok? ==> |Drain(cfg, c, now).value.orders| == |c.orders|
    decreases Weight(c)
  {
    if c.queue != [] && c.queue[0].at <= now {
      ApplyShrinks(cfg, Popped(c), c.queue[0].at, c.queue[0].event);
      var next := Apply(cfg, Popped(c), c.queue[0].at, c.queue[0].event);
      if next.Ok? { DrainKeepsOrderCount(cfg, next.value, now); }
    }
  }

  /** A materialization fails only where applying an event breaks the script, never on an invariant. */
  lemma {:induction false} MaterializeOk(cfg: Config, w: World, now: int)
    requires ValidConfig(cfg) && WorldOk(cfg, w)
    ensures Materialize(cfg, w, now).Ok? <==> Drain(cfg, w.core, now).Ok?
    ensures var r := Materialize(cfg, w, now);
            && (r.Ok? ==> WorldOk(cfg, r.value) && Progress(w.core.orders, r.value.core.orders)
                          && r.value.core == Drain(cfg, w.core, now).value)
            && (r.Err? ==> ScriptFault(r.error))
  {
    DrainOrders(cfg, w.core, now);
    DrainKeepsOrderCount(cfg, w.core, now);
    if Drain(cfg, w.core, now).Ok? {
      var core := Drain(cfg, w.core, now).value;
      ProgressChecks(w.core.orders, core.orders, w.checks);
      CheckPasses(w.(core := core, materializedAt := Observed(w.materializedAt, now)));
    }
  }

  lemma {:induction false} RearmedSane(cfg: Config, queue: seq<Timed>, at: int, waiting: seq<Waiting>, orders: nat,
                                       batches: map<BatchKey, Batch>)
    requires SaneQueue(queue, orders, batches) && FeesConfigured(cfg, queue)
    requires forall w :: w in waiting ==> w.event.Fill? && w.event.orderId < orders
    ensures SaneQueue(Rearmed(queue, at, waiting), orders, batches) && FeesConfigured(cfg, Rearmed(queue, at, waiting))
    decreases |waiting|
  {
    if waiting != [] {
      assert waiting[0] in waiting;
      InsertMembers(queue, MaxInt(at, waiting[0].since), waiting[0].event);
      RearmedSane(cfg, Insert(queue, MaxInt(at, waiting[0].since), waiting[0].event), at, waiting[1..], orders,
        batches);
    }
  }

  lemma WithQuoteOk(cfg: Config, c: Core, k: Instrument, q: Quote)
    requires Sane(cfg, c) && OrdersOk(c)
    ensures Sane(cfg, WithQuote(c, k, q)) && OrdersOk(WithQuote(c, k, q))
  {
    RearmedSane(cfg, c.queue, q.at, ParkedOn(c.parked, k), |c.orders|, c.batches);
  }

  lemma {:induction false} PushFillsSane(cfg: Config, c: Core, start: int, id: nat, fills: seq<ScriptedFill>)
    requires Sane(cfg, c) && id < |c.orders|
    ensures var r := PushFills(c, start, id, fills); Sane(cfg, r) && r == c.(queue := r.queue)
    decreases |fills|
  {
    if fills != [] {
      InsertMembers(c.queue, start + fills[0].offset, Fill(id, Some(fills[0].qty), fills[0].price));
      PushFillsSane(cfg, Push(c, start + fills[0].offset, Fill(id, Some(fills[0].qty), fills[0].price)), start, id,
        fills[1..]);
    }
  }

  lemma PushSane(cfg: Config, c: Core, at: int, event: Event)
    requires Sane(cfg, c) && SaneEvent(event, |c.orders|, c.batches) && !event.PostBatch? && !event.PostRow?
    ensures Sane(cfg, Push(c, at, event))
  {
    InsertMembers(c.queue, at, event);
  }

  lemma ScheduleSane(cfg: Config, c: Core, id: nat, openNow: bool, start: int, script: Script, expires: bool)
    requires Sane(cfg, c) && id < |c.orders|
    requires script.terminal == Filled || script.terminal == Canceled || script.terminal == Expired
    ensures var r := ScheduleOrder(cfg, c, id, openNow, start, script, expires);
            Sane(cfg, r) && r == c.(queue := r.queue)
  {
    hide Sane, PushFills, Insert, NextClose;
    var started := if openNow then c else Push(c, start, Start(id));
    PushSane(cfg, c, start, Start(id));
    var pushed := PushFills(started, start, id, script.fills);
    PushFillsSane(cfg, started, start, id, script.fills);
    var filled :=
      if script.fills != [] then
        if script.terminal != Filled
        then Push(pushed, start + script.fills[|script.fills| - 1].offset, Terminal(id, script.terminal)) else pushed
      else if script.terminal == Filled then Push(started, start + cfg.fillLatency, Fill(id, None, None))
      else started;
    if script.fills != [] && script.terminal != Filled {
      PushSane(cfg, pushed, start + script.fills[|script.fills| - 1].offset, Terminal(id, script.terminal));
    }
    PushSane(cfg, started, start + cfg.fillLatency, Fill(id, None, None));
    assert Sane(cfg, filled);
    var close := NextClose(cfg.session, start);
    if close.Some? { PushSane(cfg, filled, close.value, Expire(id)); }
  }

  lemma AddedOrder(cfg: Config, c: Core, o: Order, draws: nat)
    requires Sane(cfg, c) && OrdersOk(c)
    requires o.qty > 0.0 && o.overfill >= 0.0 && o.overfilled == 0.0 && o.filledQty == 0.0 && o.avgPrice == None
    requires o.fillEvents == 0 && o.status != Filled
    ensures var r := c.(orders := c.orders + [o], draws := draws);
            Sane(cfg, r) && OrdersOk(r) && Progress(c.orders, r.orders)
  {
    NoRowsYet(c.activities, |c.orders|);
  }

  lemma BookedOk(cfg: Config, w: World, now: int, r: Request, openNow: bool, start: int)
    requires WorldOk(cfg, w) && r.qty > 0.0
    ensures var c := Booked(cfg, w, now, r, openNow, start);
            && c.history == w.core.history && Sane(cfg, c) && OrdersOk(c) && Progress(w.core.orders, c.orders)
            && c.orders == w.core.orders + [NewOrder(cfg, w, now, r, openNow)]
  {
    hide ScheduleOrder, Sane, OrdersOk;
    var order := NewOrder(cfg, w, now, r, openNow);
    var draws := w.core.draws + (if r.client == "" then 2 else 1);
    AddedOrder(cfg, w.core, order, draws);
    var core := w.core.(orders := w.core.orders + [order], draws := draws);
    var expires := r.day && r.instrument.assetClass != Crypto;
    var script := ScriptFor(w, r.client);
    ScheduleSane(cfg, core, |w.core.orders|, openNow, start, script, expires);
    SameOrders(core, ScheduleOrder(cfg, core, |w.core.orders|, openNow, start, script, expires));
  }

  lemma AcceptOk(cfg: Config, w: World, now: int, r: Request, openNow: bool, start: int)
    requires WorldOk(cfg, w) && r.qty > 0.0
    ensures var s := Accept(cfg, w, now, r, openNow, start);
            s.core.history == w.core.history && WorldOk(cfg, s) && Progress(w.core.orders, s.core.orders)
  {
    hide Booked, Sane, OrdersOk;
    BookedOk(cfg, w, now, r, openNow, start);
  }

  lemma PlaceOk(cfg: Config, w: World, now: int, r: Request)
    requires WorldOk(cfg, w)
    ensures var s := PlaceOrder(cfg, w, now, r).world; WorldOk(cfg, s) && Progress(w.core.orders, s.core.orders)
  {
    assert RefusalCode(cfg, w, now, r).None? ==> r.qty > 0.0;
    hide RefusalCode, TotalQty, Accept, Sane, OrdersOk, ChecksOk;
    var openNow := r.instrument.assetClass == Crypto || IsOpen(cfg.session, now);
    var start := if openNow then Some(now) else NextOpen(cfg.session, now);
    if PlaceOrder(cfg, w, now, r).answer.Placed? {
      AcceptOk(cfg, w, now, r, openNow, start.value);
    }
  }

  lemma SameOrders(c: Core, d: Core)
    requires OrdersOk(c) && d.orders == c.orders && d.activities == c.activities
    ensures OrdersOk(d)
  {
  }

  lemma CancelOk(cfg: Config, w: World, now: int, id: nat)
    requires WorldOk(cfg, w)
    ensures var s := CancelOrder(cfg, w, now, id);
            s.Ok? && WorldOk(cfg, s.value.world) && Progress(w.core.orders, s.value.world.core.orders)
  {
    if id < |w.core.orders| && !IsTerminal(w.core.orders[id].status) {
      var o := Finished(w.core.orders[id], Canceled, now);
      assert OrderOk(w.core.orders[id], FillRows(w.core.activities, id));
      StatusOrders(cfg, w.core, id, o);
      var next := w.(core := w.core.(orders := w.core.orders[id := o]));
      ProgressChecks(w.core.orders, next.core.orders, w.checks);
      CheckPasses(next);
    }
  }

  /** One public call: it can fail only through the script, and keeps every order invariant. */
  lemma StepOk(cfg: Config, w: World, now: int, cmd: Command)
    requires ValidConfig(cfg) && WorldOk(cfg, w)
    ensures var s := Step(cfg, w, now, cmd);
            && (s.Ok? ==> WorldOk(cfg, s.value.world) && Progress(w.core.orders, s.value.world.core.orders))
            && (s.Err? ==> ScriptFault(s.error))
  {
    if Materializes(cmd) {
      MaterializeOk(cfg, w, now);
      if Materialize(cfg, w, now).Ok? {
        var ready := Materialize(cfg, w, now).value;
        match cmd
        case Read =>
        case SeedPosition(_, _, _, _, _) =>
        case Place(r) =>
          PlaceOk(cfg, ready, now, r);
          ProgressTrans(w.core.orders, ready.core.orders, PlaceOrder(cfg, ready, now, r).world.core.orders);
        case Cancel(id) =>
          CancelOk(cfg, ready, now, id);
          ProgressTrans(w.core.orders, ready.core.orders, CancelOrder(cfg, ready, now, id).value.world.core.orders);
      }
    } else if cmd.SetQuote? {
      WithQuoteOk(cfg, w.core, cmd.instrument, cmd.quote);
    }
  }

  /** Over every script of calls, faults included: the invariant check never fires, no call meets an unknown order or an
      unconfigured fee, filled quantities never fall, and an order once terminal is reported unchanged for ever. */
  lemma {:induction false} RunKeepsOrderInvariants(cfg: Config, w: World, script: seq<Call>)
    requires ValidConfig(cfg) && WorldOk(cfg, w)
    ensures var r := Run(cfg, w, script);
            && (r.Ok? ==> && WorldOk(cfg, r.value.world) && Progress(w.core.orders, r.value.world.core.orders)
                          && CheckInvariants(r.value.world).Ok?)
            && (r.Err? ==> ScriptFault(r.error))
    decreases |script|
  {
    if script == [] {
      CheckPasses(w);
    } else {
      StepOk(cfg, w, script[0].now, script[0].cmd);
      var s := Step(cfg, w, script[0].now, script[0].cmd);
      if s.Ok? {
        RunKeepsOrderInvariants(cfg, s.value.world, script[1..]);
        var r := Run(cfg, s.value.world, script[1..]);
        if r.Ok? { ProgressTrans(w.core.orders, s.value.world.core.orders, r.value.world.core.orders); }
      }
    }
  }

  /** A new simulator: one state, nothing queued. */
  function Fresh(createdAt: int, cash: real): World {
    World(Core([State(createdAt, cash, map[])], map[], [], [], map[], [], map[], 0), map[], map[], 0.0, None, [])
  }

  lemma FreshOk(cfg: Config, createdAt: int, cash: real)
    ensures WorldOk(cfg, Fresh(createdAt, cash))
  {
  }
}
