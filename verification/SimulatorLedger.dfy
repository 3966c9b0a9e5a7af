/** Conservation: at every instant since the start, cash is the opening cash plus the effect of every activity so far,
    and each holding is its seeds plus signed fills plus coin fees; every accrued fee is in exactly one batch, which
    is posted once, in full, and never accrues again. */
module SimulatorLedger {
  import opened Common
  import opened TradingSession
  import opened SimulatorModel
  import opened SimulatorCommands
  import opened SimulatorOrders
  import opened SimulatorPolling
  import opened SimulatorTimeline

  /** A position transferred in, and when. */
  datatype Seed = Seed(at: int, symbol: string, qty: real)

  // ---- what one activity moves ----

  /** A buy takes its value from cash, a sell brings it in. */
  function CashEffect(orders: seq<Order>, a: Activity): real {
    match a.row
    case FillRow(id, side, _, qty, price, _, _, _) =>
      if id >= |orders| then 0.0
      else if side == Buy then -(qty * price * orders[id].multiplier) else qty * price * orders[id].multiplier
    case BatchRow(_, netAmount) => netAmount
    case SingleFeeRow(row) => row.cashDelta
  }

  function QtyEffect(a: Activity, symbol: string): real {
    match a.row
    case FillRow(_, side, s, qty, _, _, _, _) =>
      if s != symbol then 0.0 else if side == Buy then qty else -qty
    case BatchRow(_, _) => 0.0
    case SingleFeeRow(row) =>
      if row.coinDelta.Some? && row.coinDelta.value.0 == symbol then row.coinDelta.value.1 else 0.0
  }

  function CashUpTo(orders: seq<Order>, activities: seq<Activity>, at: int): real
    decreases |activities|
  {
    if activities == [] then 0.0
    else
      var last := activities[|activities| - 1];
      CashUpTo(orders, activities[..|activities| - 1], at)
        + (if last.sortTime <= at then CashEffect(orders, last) else 0.0)
  }

  function QtyUpTo(activities: seq<Activity>, symbol: string, at: int): real
    decreases |activities|
  {
    if activities == [] then 0.0
    else
      var last := activities[|activities| - 1];
      QtyUpTo(activities[..|activities| - 1], symbol, at)
        + (if last.sortTime <= at then QtyEffect(last, symbol) else 0.0)
  }

  function SeedsUpTo(seeds: seq<Seed>, symbol: string, at: int): real {
    if seeds == [] then 0.0
    else
      var last := seeds[|seeds| - 1];
      SeedsUpTo(seeds[..|seeds| - 1], symbol, at) + (if last.at <= at && last.symbol == symbol then last.qty else 0.0)
  }

  /** Every order keeps what its charges and cash effects depend on. */
  ghost predicate SameTerms(before: seq<Order>, after: seq<Order>) {
    && |before| <= |after|
    && forall i :: 0 <= i < |before| ==>
         && after[i].instrument == before[i].instrument && after[i].side == before[i].side
         && after[i].multiplier == before[i].multiplier
  }

  ghost predicate KnownBy(activities: seq<Activity>, seeds: seq<Seed>, at: int) {
    && (forall a :: a in activities ==> a.sortTime <= at)
    && (forall s :: s in seeds ==> s.at <= at)
  }

  ghost predicate CashBalanced(c: Core, opening: real)
    requires c.history != []
  {
    forall u :: u >= c.history[0].at ==> StateAt(c.history, u).cash == opening + CashUpTo(c.orders, c.activities, u)
  }

  ghost predicate HoldingsBalanced(c: Core, seeds: seq<Seed>)
    requires c.history != []
  {
    forall u, symbol :: u >= c.history[0].at ==>
      Qty(StateAt(c.history, u).holdings, symbol) == SeedsUpTo(seeds, symbol, u) + QtyUpTo(c.activities, symbol, u)
  }

  ghost predicate Balanced(c: Core, opening: real, seeds: seq<Seed>) {
    && c.history != [] && SaneRows(c.activities, |c.orders|) && KnownBy(c.activities, seeds, LastAt(c.history))
    && CashBalanced(c, opening) && HoldingsBalanced(c, seeds)
  }

  // ---- sums ----

  lemma {:induction false} SameTermsSameCash(before: seq<Order>, after: seq<Order>, activities: seq<Activity>, at: int)
    requires SameTerms(before, after) && SaneRows(activities, |before|)
    ensures CashUpTo(after, activities, at) == CashUpTo(before, activities, at)
    decreases |activities|
  {
    if activities != [] {
      assert activities[|activities| - 1] in activities;
      SameTermsSameCash(before, after, activities[..|activities| - 1], at);
    }
  }

  /** Once everything is known, later instants add nothing. */
  lemma {:induction false} CashSettled(orders: seq<Order>, activities: seq<Activity>, seeds: seq<Seed>, at: int,
                                       later: int)
    requires KnownBy(activities, seeds, at) && at <= later
    ensures CashUpTo(orders, activities, later) == CashUpTo(orders, activities, at)
    decreases |activities|
  {
    if activities != [] {
      assert activities[|activities| - 1] in activities;
      CashSettled(orders, activities[..|activities| - 1], seeds, at, later);
    }
  }

  lemma {:induction false} QtySettled(activities: seq<Activity>, seeds: seq<Seed>, symbol: string, at: int, later: int)
    requires KnownBy(activities, seeds, at) && at <= later
    ensures QtyUpTo(activities, symbol, later) == QtyUpTo(activities, symbol, at)
    decreases |activities|
  {
    if activities != [] {
      assert activities[|activities| - 1] in activities;
      QtySettled(activities[..|activities| - 1], seeds, symbol, at, later);
    }
  }

  lemma {:induction false} SeedsSettled(activities: seq<Activity>, seeds: seq<Seed>, symbol: string, at: int,
                                        later: int)
    requires KnownBy(activities, seeds, at) && at <= later
    ensures SeedsUpTo(seeds, symbol, later) == SeedsUpTo(seeds, symbol, at)
    decreases |seeds|
  {
    if seeds != [] {
      assert seeds[|seeds| - 1] in seeds;
      SeedsSettled(activities, seeds[..|seeds| - 1], symbol, at, later);
    }
  }

  lemma {:induction false} CashAppend(orders: seq<Order>, activities: seq<Activity>, a: Activity, at: int)
    ensures CashUpTo(orders, activities + [a], at)
         == CashUpTo(orders, activities, at) + (if a.sortTime <= at then CashEffect(orders, a) else 0.0)
  {
    assert (activities + [a])[..|activities|] == activities;
  }

  lemma {:induction false} QtyAppend(activities: seq<Activity>, a: Activity, symbol: string, at: int)
    ensures QtyUpTo(activities + [a], symbol, at)
         == QtyUpTo(activities, symbol, at) + (if a.sortTime <= at then QtyEffect(a, symbol) else 0.0)
  {
    assert (activities + [a])[..|activities|] == activities;
  }

  lemma {:induction false} SeedsAppend(seeds: seq<Seed>, s: Seed, symbol: string, at: int)
    ensures SeedsUpTo(seeds + [s], symbol, at)
         == SeedsUpTo(seeds, symbol, at) + (if s.at <= at && s.symbol == symbol then s.qty else 0.0)
  {
    assert (seeds + [s])[..|seeds|] == seeds;
  }

  // ---- one entry in the books ----

  lemma CashEntry(c: Core, d: Core, opening: real, seeds: seq<Seed>, s: State, a: Activity)
    requires Balanced(c, opening, seeds) && HistoryRising(c.history) && LastAt(c.history) <= s.at == a.sortTime
    requires d.history == Record(c.history, s) && d.activities == c.activities + [a] && SameTerms(c.orders, d.orders)
    requires s.cash == StateAt(c.history, s.at).cash + CashEffect(d.orders, a)
    ensures CashBalanced(d, opening)
  {
    RecordRises(c.history, s);
    forall u | u >= d.history[0].at
      ensures StateAt(d.history, u).cash == opening + CashUpTo(d.orders, d.activities, u)
    {
      CashAppend(d.orders, c.activities, a, u);
      SameTermsSameCash(c.orders, d.orders, c.activities, u);
      if u >= s.at {
        StateAtEnd(d.history, u);
        StateAtEnd(c.history, s.at);
        CashSettled(c.orders, c.activities, seeds, LastAt(c.history), u);
        CashSettled(c.orders, c.activities, seeds, LastAt(c.history), s.at);
      } else {
        RecordKeepsPast(c.history, s, u);
      }
    }
  }

  lemma HoldingsEntry(c: Core, d: Core, opening: real, seeds: seq<Seed>, s: State, a: Activity)
    requires Balanced(c, opening, seeds) && HistoryRising(c.history) && LastAt(c.history) <= s.at == a.sortTime
    requires d.history == Record(c.history, s) && d.activities == c.activities + [a]
    requires forall symbol ::
             Qty(s.holdings, symbol) == Qty(StateAt(c.history, s.at).holdings, symbol) + QtyEffect(a, symbol)
    ensures HoldingsBalanced(d, seeds)
  {
    RecordRises(c.history, s);
    forall u, symbol | u >= d.history[0].at
      ensures Qty(StateAt(d.history, u).holdings, symbol)
              == SeedsUpTo(seeds, symbol, u) + QtyUpTo(d.activities, symbol, u)
    {
      QtyAppend(c.activities, a, symbol, u);
      if u >= s.at {
        StateAtEnd(d.history, u);
        QtySettled(c.activities, seeds, symbol, LastAt(c.history), u);
        QtySettled(c.activities, seeds, symbol, LastAt(c.history), s.at);
        SeedsSettled(c.activities, seeds, symbol, LastAt(c.history), u);
        SeedsSettled(c.activities, seeds, symbol, LastAt(c.history), s.at);
      } else {
        RecordKeepsPast(c.history, s, u);
      }
    }
  }

  lemma Entry(c: Core, d: Core, opening: real, seeds: seq<Seed>, s: State, a: Activity)
    requires Balanced(c, opening, seeds) && HistoryRising(c.history) && LastAt(c.history) <= s.at == a.sortTime
    requires d.history == Record(c.history, s) && d.activities == c.activities + [a] && SameTerms(c.orders, d.orders)
    requires a.row.FillRow? ==> a.row.orderId < |d.orders|
    requires s.cash == StateAt(c.history, s.at).cash + CashEffect(d.orders, a)
    requires forall symbol ::
             Qty(s.holdings, symbol) == Qty(StateAt(c.history, s.at).holdings, symbol) + QtyEffect(a, symbol)
    ensures Balanced(d, opening, seeds)
  {
    CashEntry(c, d, opening, seeds, s, a);
    HoldingsEntry(c, d, opening, seeds, s, a);
    RecordRises(c.history, s);
  }

  /** Changes that touch neither history nor activities keep the books. */
  lemma Untouched(c: Core, d: Core, opening: real, seeds: seq<Seed>)
    requires Balanced(c, opening, seeds) && d.history == c.history && d.activities == c.activities
             && SameTerms(c.orders, d.orders)
    ensures Balanced(d, opening, seeds)
  {
    forall u | u >= d.history[0].at
      ensures StateAt(d.history, u).cash == opening + CashUpTo(d.orders, d.activities, u)
    {
      SameTermsSameCash(c.orders, d.orders, c.activities, u);
    }
  }

  lemma HoldingsMove(holdings: map<string, Holding>, o: Order, qty: real, price: real, symbol: string)
    ensures Qty(HoldingsAfterFill(holdings, o, qty, price), symbol)
         == Qty(holdings, symbol) + (if symbol == o.instrument.symbol then Signed(o.side, qty) else 0.0)
  {
  }

  lemma CostIs(o: Order, qty: real, price: real)
    ensures Cost(o, qty, price) == if o.side == Buy then qty * price * o.multiplier else -(qty * price * o.multiplier)
  {
    assert -qty * price == -(qty * price);
    assert -(qty * price) * o.multiplier == -(qty * price * o.multiplier);
  }

  lemma ExecuteBalanced(cfg: Config, c: Core, id: nat, at: int, scripted: real, price: real, opening: real,
                        seeds: seq<Seed>)
    requires InOrder(c, at) && id < |c.orders| && Balanced(c, opening, seeds)
    ensures var r := Execute(cfg, c, id, at, scripted, price); r.Ok? ==> Balanced(r.value, opening, seeds)
  {
    hide AccrueFees, HoldingsAfterFill, Balanced;
    var executed := Executed(cfg, c, id, at, scripted, price);
    var o := executed.orders[id];
    var qty := scripted + c.orders[id].overfill;
    var booked := BookFill(c.history, o, at, qty, price);
    if booked.Ok? {
      var before := StateAt(c.history, at);
      var s := FilledState(before, o, at, qty, price);
      var paid := executed.(history := booked.value);
      var a := executed.activities[|c.activities|];
      assert paid.activities == c.activities + [a];
      forall symbol ensures Qty(s.holdings, symbol) == Qty(before.holdings, symbol) + QtyEffect(a, symbol) {
        HoldingsMove(before.holdings, o, qty, price, symbol);
      }
      CostIs(o, qty, price);
      Entry(c, paid, opening, seeds, s, a);
      AccrueFeesWeight(cfg, paid, o, at, qty, price, c.draws);
      var r := AccrueFees(cfg, paid, o, at, qty, price, c.draws);
      if r.Ok? { Untouched(paid, r.value, opening, seeds); }
    }
  }

  lemma ChargedBalanced(c: Core, at: int, row: Row, cashDelta: real, coinDelta: Option<(string, real)>, opening: real,
                        seeds: seq<Seed>)
    requires InOrder(c, at) && Balanced(c, opening, seeds)
    requires !row.FillRow? && CashEffect(c.orders, Activity(0, at, at, row)) == cashDelta
    requires forall symbol :: QtyEffect(Activity(0, at, at, row), symbol)
               == (if coinDelta.Some? && coinDelta.value.0 == symbol then coinDelta.value.1 else 0.0)
    ensures var r := Charged(c, at, row, cashDelta, coinDelta); r.Ok? ==> Balanced(r.value, opening, seeds)
  {
    hide Balanced;
    var r := Charged(c, at, row, cashDelta, coinDelta);
    if r.Ok? {
      var before := StateAt(c.history, at);
      var s := r.value.history[|r.value.history| - 1];
      var a := Activity(c.draws, at, at, row);
      assert CashEffect(c.orders, a) == cashDelta;
      forall symbol ensures Qty(s.holdings, symbol) == Qty(before.holdings, symbol) + QtyEffect(a, symbol) {
        assert QtyEffect(a, symbol) == QtyEffect(Activity(0, at, at, row), symbol);
      }
      Entry(c, r.value, opening, seeds, s, a);
    }
  }

  lemma ApplyFeeBalanced(cfg: Config, c: Core, at: int, event: Event, opening: real, seeds: seq<Seed>)
    requires InOrder(c, at) && Balanced(c, opening, seeds) && (event.PostBatch? || event.PostRow?)
    ensures var r := ApplyFee(cfg, c, at, event); r.Ok? ==> Balanced(r.value, opening, seeds)
  {
    hide Charged, Balanced;
    if event.PostRow? {
      ChargedBalanced(c, at, SingleFeeRow(event.row), event.row.cashDelta, event.row.coinDelta, opening, seeds);
    } else if cfg.fees.Some? && event.key in c.batches {
      var b := c.batches[event.key];
      var posted := c.(batches := c.batches[event.key := b.(posted := true)]);
      var amount := cfg.fees.value.rates.cents(b.amount);
      Untouched(c, posted, opening, seeds);
      ChargedBalanced(posted, at, BatchRow(event.key, -amount), -amount, None, opening, seeds);
    }
  }

  lemma ApplyBalanced(cfg: Config, c: Core, at: int, event: Event, opening: real, seeds: seq<Seed>)
    requires InOrder(c, at) && Balanced(c, opening, seeds)
    ensures var r := Apply(cfg, c, at, event); r.Ok? ==> Balanced(r.value, opening, seeds)
  {
    hide Execute, ApplyFee, Balanced;
    if event.PostBatch? || event.PostRow? {
      ApplyFeeBalanced(cfg, c, at, event, opening, seeds);
    } else if event.orderId < |c.orders| && !IsTerminal(c.orders[event.orderId].status) {
      var o := c.orders[event.orderId];
      if event.Fill? {
        var plan := PlanFill(c.quotes, o, at, event);
        if plan.Wait? {
          Untouched(c, Rearm(c, o.instrument, at, event), opening, seeds);
        } else if plan.Take? {
          ExecuteBalanced(cfg, c, event.orderId, at, plan.scripted, plan.price, opening, seeds);
        }
      } else {
        Untouched(c, Apply(cfg, c, at, event).value, opening, seeds);
      }
    }
  }

  lemma {:induction false} DrainBalanced(cfg: Config, c: Core, floor: int, now: int, opening: real, seeds: seq<Seed>)
    requires DelaysOk(cfg) && InOrder(c, floor) && floor <= now && Balanced(c, opening, seeds)
    ensures var r := Drain(cfg, c, now); r.Ok? ==> Balanced(r.value, opening, seeds)
    decreases Weight(c)
  {
    if c.queue != [] && c.queue[0].at <= now {
      var head := c.queue[0];
      PoppedInOrder(c, floor);
      Untouched(c, Popped(c), opening, seeds);
      ApplyBalanced(cfg, Popped(c), head.at, head.event, opening, seeds);
      ApplyInOrder(cfg, Popped(c), head.at, head.event);
      ApplyShrinks(cfg, Popped(c), head.at, head.event);
      var next := Apply(cfg, Popped(c), head.at, head.event);
      if next.Ok? { DrainBalanced(cfg, next.value, head.at, now, opening, seeds); }
    }
  }

  // ---- whole calls ----

  /** The seeds a call or a script actually transfers in. */
  function SeedsIn(now: int, answer: Answer): seq<Seed> {
    if answer.Seeded? then [Seed(now, answer.symbol, answer.qty)] else []
  }

  function SeedsOf(cfg: Config, w: World, script: seq<Call>): seq<Seed>
    requires w.core.history != []
    decreases |script|
  {
    if script == [] then []
    else match Step(cfg, w, script[0].now, script[0].cmd)
      case Err(_) => []
      case Ok(s) =>
        StepKeepsHistory(cfg, w, script[0].now, script[0].cmd);
        SeedsIn(script[0].now, s.answer) + SeedsOf(cfg, s.world, script[1..])
  }

  lemma SeedCash(c: Core, now: int, cmd: Command, opening: real, seeds: seq<Seed>)
    requires InOrder(c, now) && Balanced(c, opening, seeds) && cmd.SeedPosition?
    ensures CashBalanced(SeedCore(c, now, cmd), opening)
  {
    hide HoldingsBalanced, StateAt, CashUpTo;
    var d := SeedCore(c, now, cmd);
    var s := SeededState(c, now, cmd);
    RecordRises(c.history, s);
    forall u | u >= d.history[0].at
      ensures StateAt(d.history, u).cash == opening + CashUpTo(d.orders, d.activities, u)
    {
      if u >= now {
        StateAtEnd(d.history, u);
        CashSettled(c.orders, c.activities, seeds, LastAt(c.history), u);
        CashSettled(c.orders, c.activities, seeds, LastAt(c.history), now);
      } else {
        RecordKeepsPast(c.history, s, u);
      }
    }
  }

  function SeededState(c: Core, now: int, cmd: Command): State
    requires c.history != [] && cmd.SeedPosition?
  {
    var s := StateAt(c.history, now);
    State(now, s.cash, s.holdings[cmd.symbol := Holding(cmd.assetClass, cmd.qty, cmd.avgEntry, cmd.multiplier)])
  }

  lemma SeedBalanced(c: Core, now: int, cmd: Command, opening: real, seeds: seq<Seed>)
    requires InOrder(c, now) && Balanced(c, opening, seeds) && cmd.SeedPosition?
    requires cmd.symbol !in StateAt(c.history, now).holdings
    ensures Balanced(SeedCore(c, now, cmd), opening, seeds + [Seed(now, cmd.symbol, cmd.qty)])
  {
    hide CashBalanced, StateAt, SeedsUpTo, QtyUpTo;
    SeedCash(c, now, cmd, opening, seeds);
    var d := SeedCore(c, now, cmd);
    var s := SeededState(c, now, cmd);
    var all := seeds + [Seed(now, cmd.symbol, cmd.qty)];
    RecordRises(c.history, s);
    forall u, symbol | u >= d.history[0].at
      ensures Qty(StateAt(d.history, u).holdings, symbol)
              == SeedsUpTo(all, symbol, u) + QtyUpTo(d.activities, symbol, u)
    {
      SeedsAppend(seeds, Seed(now, cmd.symbol, cmd.qty), symbol, u);
      if u >= now {
        StateAtEnd(d.history, u);
        QtySettled(c.activities, seeds, symbol, LastAt(c.history), u);
        QtySettled(c.activities, seeds, symbol, LastAt(c.history), now);
        SeedsSettled(c.activities, seeds, symbol, LastAt(c.history), u);
        SeedsSettled(c.activities, seeds, symbol, LastAt(c.history), now);
      } else {
        RecordKeepsPast(c.history, s, u);
      }
    }
  }

  lemma BookedBalanced(cfg: Config, w: World, now: int, r: Request, openNow: bool, start: int, opening: real,
                       seeds: seq<Seed>)
    requires Balanced(w.core, opening, seeds)
    ensures Balanced(Booked(cfg, w, now, r, openNow, start), opening, seeds)
  {
    hide ScheduleOrder, Balanced;
    var core := w.core.(orders := w.core.orders + [NewOrder(cfg, w, now, r, openNow)],
                        draws := w.core.draws + (if r.client == "" then 2 else 1));
    ScheduleKeeps(cfg, core, |w.core.orders|, openNow, start, ScriptFor(w, r.client),
                  r.day && r.instrument.assetClass != Crypto);
    Untouched(w.core, Booked(cfg, w, now, r, openNow, start), opening, seeds);
  }

  lemma ActBalanced(cfg: Config, w: World, now: int, cmd: Command, opening: real, seeds: seq<Seed>)
    requires w.core.history != [] && InOrder(w.core, now) && Balanced(w.core, opening, seeds) && Materializes(cmd)
    ensures var r := Act(cfg, w, now, cmd);
            r.Ok? ==> Balanced(r.value.world.core, opening, seeds + SeedsIn(now, r.value.answer))
  {
    hide Balanced, Booked, RefusalCode, TotalQty, AllSound;
    assert seeds + [] == seeds;
    match cmd {
      case Read =>
      case SeedPosition(symbol, _, qty, _, _) =>
        if symbol !in StateAt(w.core.history, now).holdings { SeedBalanced(w.core, now, cmd, opening, seeds); }
      case Place(r) =>
        var openNow := r.instrument.assetClass == Crypto || IsOpen(cfg.session, now);
        var start := if openNow then Some(now) else NextOpen(cfg.session, now);
        if start.Some? { BookedBalanced(cfg, w, now, r, openNow, start.value, opening, seeds); }
      case Cancel(id) =>
        if id < |w.core.orders| {
          Untouched(w.core, w.core.(orders := w.core.orders[id := Finished(w.core.orders[id], Canceled, now)]),
            opening, seeds);
        }
    }
  }

  lemma StepBalanced(cfg: Config, w: World, now: int, cmd: Command, opening: real, seeds: seq<Seed>)
    requires DelaysOk(cfg) && TimelineOk(w) && Floor(w) <= now && Balanced(w.core, opening, seeds)
    ensures var s := Step(cfg, w, now, cmd);
            s.Ok? ==> Balanced(s.value.world.core, opening, seeds + SeedsIn(now, s.value.answer))
  {
    hide Balanced, Act;
    assert seeds + [] == seeds;
    if Materializes(cmd) {
      DrainBalanced(cfg, w.core, Floor(w), now, opening, seeds);
      DrainInOrder(cfg, w.core, Floor(w), now);
      var m := Materialize(cfg, w, now);
      if m.Ok? { ActBalanced(cfg, m.value, now, cmd, opening, seeds); }
    } else if cmd.SetQuote? {
      Untouched(w.core, WithQuote(w.core, cmd.instrument, cmd.quote), opening, seeds);
    }
  }

  /** Over every script: cash and every holding, at every instant since the start, are exactly what the opening cash,
      the seeds and the activities up to that instant say. */
  lemma {:induction false} RunConserves(cfg: Config, w: World, script: seq<Call>, opening: real, seeds: seq<Seed>)
    requires ValidConfig(cfg) && DelaysOk(cfg) && TimelineOk(w) && ClockForward(Floor(w), script)
    requires Balanced(w.core, opening, seeds)
    ensures var r := Run(cfg, w, script);
            r.Ok? ==> Balanced(r.value.world.core, opening, seeds + SeedsOf(cfg, w, script))
    decreases |script|
  {
    hide Balanced, Step, InOrder, Scripted;
    if script == [] {
      assert seeds + [] == seeds;
    } else {
      StepTimeline(cfg, w, script[0].now, script[0].cmd);
      StepBalanced(cfg, w, script[0].now, script[0].cmd, opening, seeds);
      var s := Step(cfg, w, script[0].now, script[0].cmd);
      if s.Ok? {
        ClockEarlier(Floor(s.value.world), script[0].now, script[1..]);
        var more := seeds + SeedsIn(script[0].now, s.value.answer);
        RunConserves(cfg, s.value.world, script[1..], opening, more);
        assert more + SeedsOf(cfg, s.value.world, script[1..]) == seeds + SeedsOf(cfg, w, script);
      }
    }
  }

  lemma FreshBalanced(createdAt: int, cash: real)
    ensures Balanced(Fresh(createdAt, cash).core, cash, [])
  {
  }
}
