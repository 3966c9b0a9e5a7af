/** Polling changes at most the order of same-instant events that have nothing to do with each other: whole scripts,
    with any number of instruments quoted for one instant. */
module SimulatorTiedRuns {
  import opened Common
  import opened TradingSession
  import opened SimulatorModel
  import opened SimulatorCommands
  import opened SimulatorOrders
  import opened SimulatorPolling
  import opened SimulatorTimeline
  import opened SimulatorSwaps
  import opened SimulatorViews
  import opened SimulatorEffects
  import opened SimulatorPushes
  import opened SimulatorTies
  import opened SimulatorTiedQuotes

  // ---- what every call keeps ----

  /** Sound orders, a timeline in order, postings that are due when queued, and fills waiting at home. */
  ghost predicate Steadfast(cfg: Config, w: World) {
    WorldOk(cfg, w) && TimelineOk(w) && PostsAreDue(w.core) && ParkedHome(w.core)
  }

  lemma SteadfastSteady(cfg: Config, w: World)
    requires Steadfast(cfg, w)
    ensures w.core.history != [] && Steady(w.core, Floor(w)) && Scripted(w)
  {
  }

  lemma {:induction false} DrainSteady(cfg: Config, c: Core, floor: int, now: int)
    requires DelaysOk(cfg) && Steady(c, floor) && floor <= now
    ensures c.history != []
    ensures var r := Drain(cfg, c, now); r.Ok? ==> Steady(r.value, now) && r.value.quotes == c.quotes
    decreases Weight(c)
  {
    SteadyHistory(c, floor);
    DrainInOrder(cfg, c, floor, now);
    if c.queue != [] && c.queue[0].at <= now {
      hide Apply, InOrder, Weight, PostsAreDue, ParkedHome;
      StepSteady(cfg, c, floor);
      DrainsHead(cfg, c, now);
      ApplyFrame(cfg, Popped(c), c.queue[0].at, c.queue[0].event);
      var r := Apply(cfg, Popped(c), c.queue[0].at, c.queue[0].event);
      if r.Ok? { DrainSteady(cfg, r.value, c.queue[0].at, now); }
    }
  }

  ghost predicate Waits(c: Core) { PostsAreDue(c) && ParkedHome(c) }

  lemma PushWaits(c: Core, t: int, e: Event)
    requires Waits(c) && !e.PostBatch?
    ensures Waits(Push(c, t, e))
  {
    InsertMembers(c.queue, t, e);
  }

  lemma {:induction false} PushFillsWait(c: Core, start: int, id: nat, fills: seq<ScriptedFill>)
    requires Waits(c)
    ensures Waits(PushFills(c, start, id, fills))
    decreases |fills|
  {
    hide Waits;
    if fills != [] {
      var e := Fill(id, Some(fills[0].qty), fills[0].price);
      PushWaits(c, start + fills[0].offset, e);
      PushFillsWait(Push(c, start + fills[0].offset, e), start, id, fills[1..]);
    }
  }

  lemma ScheduleWaits(cfg: Config, c: Core, id: nat, openNow: bool, start: int, script: Script, expires: bool)
    requires Waits(c)
    ensures Waits(ScheduleOrder(cfg, c, id, openNow, start, script, expires))
  {
    hide Waits, PushFills, Push, NextClose;
    PushWaits(c, start, Start(id));
    var started := if openNow then c else Push(c, start, Start(id));
    PushFillsWait(started, start, id, script.fills);
    var pushed := PushFills(started, start, id, script.fills);
    if script.fills != [] && script.terminal != Filled {
      PushWaits(pushed, start + script.fills[|script.fills| - 1].offset, Terminal(id, script.terminal));
    }
    PushWaits(started, start + cfg.fillLatency, Fill(id, None, None));
    var filled :=
      if script.fills != [] then
        if script.terminal != Filled
        then Push(pushed, start + script.fills[|script.fills| - 1].offset, Terminal(id, script.terminal)) else pushed
      else if script.terminal == Filled then Push(started, start + cfg.fillLatency, Fill(id, None, None))
      else started;
    var close := NextClose(cfg.session, start);
    if close.Some? { PushWaits(filled, close.value, Expire(id)); }
  }

  lemma OrdersWait(c: Core, orders: seq<Order>, draws: nat)
    requires Waits(c) && SameKinds(c.orders, orders)
    ensures Waits(c.(orders := orders, draws := draws))
  {
    hide SameKinds, MayWait;
    forall k, w | k in c.parked && w in c.parked[k] ensures MayWait(orders, k, w.event) {
      StillWaits(c.orders, orders, k, w.event);
    }
  }

  lemma PlaceWaits(cfg: Config, w: World, now: int, r: Request)
    requires w.core.history != [] && Waits(w.core)
    ensures Waits(PlaceOrder(cfg, w, now, r).world.core)
  {
    hide Waits, ScheduleOrder, RefusalCode, TotalQty, NewOrder;
    var openNow := r.instrument.assetClass == Crypto || IsOpen(cfg.session, now);
    var start := if openNow then Some(now) else NextOpen(cfg.session, now);
    var draws := w.core.draws + (if r.client == "" then 2 else 1);
    var orders := w.core.orders + [NewOrder(cfg, w, now, r, openNow)];
    OrdersWait(w.core, orders, draws);
    if start.Some? {
      ScheduleWaits(cfg, w.core.(orders := orders, draws := draws), |w.core.orders|, openNow, start.value,
                    ScriptFor(w, r.client), r.day && r.instrument.assetClass != Crypto);
    }
  }

  lemma ActWaits(cfg: Config, w: World, now: int, cmd: Command)
    requires w.core.history != [] && Waits(w.core) && Materializes(cmd)
    ensures var r := Act(cfg, w, now, cmd); r.Ok? ==> Waits(r.value.world.core)
  {
    hide Waits, PlaceOrder, AllSound, Finished;
    match cmd
    case Read =>
    case SeedPosition(_, _, _, _, _) => SeedWaits(w.core, SeedCore(w.core, now, cmd));
    case Place(request) => PlaceWaits(cfg, w, now, request);
    case Cancel(id) =>
      if id < |w.core.orders| {
        var orders := w.core.orders[id := Finished(w.core.orders[id], Canceled, now)];
        FinishedKinds(w.core.orders, id, Canceled, now);
        OrdersWait(w.core, orders, w.core.draws);
        assert w.core.(orders := orders, draws := w.core.draws) == w.core.(orders := orders);
      }
  }

  lemma SeedWaits(c: Core, d: Core)
    requires Waits(c) && d == c.(history := d.history)
    ensures Waits(d)
  {
  }

  lemma FinishedKinds(orders: seq<Order>, id: nat, status: Status, at: int)
    requires id < |orders|
    ensures SameKinds(orders, orders[id := Finished(orders[id], status, at)])
  {
  }

  lemma QuoteWaits(c: Core, k: Instrument, q: Quote)
    requires Waits(c)
    ensures Waits(WithQuote(c, k, q))
  {
    RearmedKeepsDue(c.batches, c.queue, q.at, ParkedOn(c.parked, k));
  }

  lemma StepSteadfast(cfg: Config, w: World, now: int, cmd: Command)
    requires ValidConfig(cfg) && DelaysOk(cfg) && Steadfast(cfg, w) && Floor(w) <= now
    ensures var s := Step(cfg, w, now, cmd); s.Ok? ==> Steadfast(cfg, s.value.world) && Floor(s.value.world) <= now
  {
    hide Act, WithQuote, Drain, WorldOk, TimelineOk, PostsAreDue, ParkedHome, CheckInvariants;
    SteadfastSteady(cfg, w);
    StepOk(cfg, w, now, cmd);
    StepTimeline(cfg, w, now, cmd);
    if Materializes(cmd) {
      DrainSteady(cfg, w.core, Floor(w), now);
      MaterializeOk(cfg, w, now);
      MaterializeTimeline(cfg, w, now);
      var m := Materialize(cfg, w, now);
      if m.Ok? {
        TimelineHistory(m.value);
        ActWaits(cfg, m.value, now, cmd);
      }
    } else if cmd.SetQuote? {
      QuoteWaits(w.core, cmd.instrument, cmd.quote);
    }
  }

  lemma TimelineHistory(w: World)
    requires TimelineOk(w)
    ensures w.core.history != []
  {
  }

  lemma FreshSteadfast(cfg: Config, createdAt: int, cash: real)
    ensures Steadfast(cfg, Fresh(createdAt, cash))
  {
    FreshOk(cfg, createdAt, cash);
    FreshTimeline(createdAt, cash);
  }

  // ---- one call on two such worlds ----

  lemma {:induction false} PushTied(c: Core, d: Core, t: int, e: Event)
    requires SameButTies(c, d)
    ensures SameButTies(Push(c, t, e), Push(d, t, e))
  {
    hide PlainQueue, PlainActivities, Connected, Insert;
    SameViewBeside(c, d);
    PlainInsert(c.queue, t, e);
    PlainInsert(d.queue, t, e);
    InsertKeeps(c.orders, PlainQueue(c.queue), PlainQueue(d.queue), t, Plain(e));
    TiedIfConnected(Push(c, t, e), Push(d, t, e));
  }

  lemma {:induction false} PushFillsTied(c: Core, d: Core, start: int, id: nat, fills: seq<ScriptedFill>)
    requires SameButTies(c, d)
    ensures SameButTies(PushFills(c, start, id, fills), PushFills(d, start, id, fills))
    decreases |fills|
  {
    hide SameButTies;
    if fills != [] {
      var t, e := start + fills[0].offset, Fill(id, Some(fills[0].qty), fills[0].price);
      PushTied(c, d, t, e);
      PushFillsTied(Push(c, t, e), Push(d, t, e), start, id, fills[1..]);
    }
  }

  lemma {:induction false} ScheduleTied(cfg: Config, c: Core, d: Core, id: nat, openNow: bool, start: int,
                                        script: Script, expires: bool)
    requires SameButTies(c, d)
    ensures SameButTies(ScheduleOrder(cfg, c, id, openNow, start, script, expires),
                        ScheduleOrder(cfg, d, id, openNow, start, script, expires))
  {
    hide SameButTies, PushFills, Push, NextClose;
    PushTied(c, d, start, Start(id));
    var c1, d1 := if openNow then c else Push(c, start, Start(id)), if openNow then d else Push(d, start, Start(id));
    PushFillsTied(c1, d1, start, id, script.fills);
    var c2, d2 := PushFills(c1, start, id, script.fills), PushFills(d1, start, id, script.fills);
    PushTied(c1, d1, start + cfg.fillLatency, Fill(id, None, None));
    var close := NextClose(cfg.session, start);
    if script.fills != [] {
      var end := start + script.fills[|script.fills| - 1].offset;
      var e := Terminal(id, script.terminal);
      PushTied(c2, d2, end, e);
      if close.Some? {
        PushTied(c2, d2, close.value, Expire(id));
        PushTied(Push(c2, end, e), Push(d2, end, e), close.value, Expire(id));
      }
    } else if close.Some? {
      var t, e := start + cfg.fillLatency, Fill(id, None, None);
      PushTied(c1, d1, close.value, Expire(id));
      PushTied(Push(c1, t, e), Push(d1, t, e), close.value, Expire(id));
    }
  }

  lemma {:induction false} OrdersTied(c: Core, d: Core, orders: seq<Order>, draws: nat, history: seq<State>)
    requires SameButTies(c, d) && SameKinds(c.orders, orders)
    ensures SameButTies(c.(orders := orders, draws := draws, history := history),
                        d.(orders := orders, draws := draws, history := history))
  {
    hide PlainQueue, PlainActivities, Connected, SameKinds;
    KindsKeepConnected(c.orders, orders, PlainQueue(c.queue), PlainQueue(d.queue));
  }

  /** All but the timeline itself, and what the invariant check remembers. */
  ghost predicate SameDesk(a: World, b: World) {
    a.clients == b.clients && a.scripts == b.scripts && a.overfillPending == b.overfillPending
  }

  ghost predicate SameWorld(a: World, b: World) {
    SameDesk(a, b) && a.materializedAt == b.materializedAt && SameButTies(b.core, a.core)
  }

  lemma SameFields(c: Core, d: Core)
    requires SameButTies(c, d)
    ensures c.history == d.history && c.quotes == d.quotes && c.orders == d.orders && c.parked == d.parked
    ensures c.batches == d.batches && c.draws == d.draws
  {
  }

  lemma SameNewOrder(cfg: Config, a: World, b: World, now: int, r: Request, openNow: bool)
    requires SameDesk(a, b) && a.core.draws == b.core.draws
    ensures NewOrder(cfg, a, now, r, openNow) == NewOrder(cfg, b, now, r, openNow)
    ensures ScriptFor(a, r.client) == ScriptFor(b, r.client)
  {
  }

  lemma SameRefusal(cfg: Config, a: World, b: World, now: int, r: Request)
    requires SameDesk(a, b) && a.core.history != [] && a.core.history == b.core.history
             && a.core.orders == b.core.orders
    ensures RefusalCode(cfg, a, now, r) == RefusalCode(cfg, b, now, r)
  {
  }

  lemma {:induction false} PlaceTied(cfg: Config, a: World, b: World, now: int, r: Request)
    requires a.core.history != [] && b.core.history != [] && SameWorld(a, b)
    ensures var s, t := PlaceOrder(cfg, a, now, r), PlaceOrder(cfg, b, now, r);
            s.answer == t.answer && SameWorld(s.world, t.world)
  {
    hide SameButTies, Booked, TotalQty, RefusalCode, NewOrder, ScriptFor;
    SameFields(b.core, a.core);
    SameRefusal(cfg, a, b, now, r);
    var openNow := r.instrument.assetClass == Crypto || IsOpen(cfg.session, now);
    SameNewOrder(cfg, a, b, now, r, openNow);
    var start := if openNow then Some(now) else NextOpen(cfg.session, now);
    if start.Some? { BookedTied(cfg, a, b, now, r, openNow, start.value); }
  }

  lemma {:induction false} BookedTied(cfg: Config, a: World, b: World, now: int, r: Request, openNow: bool, start: int)
    requires SameWorld(a, b)
    ensures SameButTies(Booked(cfg, b, now, r, openNow, start), Booked(cfg, a, now, r, openNow, start))
  {
    hide SameButTies, ScheduleOrder, NewOrder, ScriptFor, SameKinds;
    SameFields(b.core, a.core);
    SameNewOrder(cfg, a, b, now, r, openNow);
    var orders := b.core.orders + [NewOrder(cfg, b, now, r, openNow)];
    var draws := b.core.draws + (if r.client == "" then 2 else 1);
    AddedKinds(b.core.orders, NewOrder(cfg, b, now, r, openNow));
    OrdersTied(b.core, a.core, orders, draws, b.core.history);
    var c, d := b.core.(orders := orders, draws := draws), a.core.(orders := orders, draws := draws);
    assert b.core.(orders := orders, draws := draws, history := b.core.history) == c;
    assert a.core.(orders := orders, draws := draws, history := b.core.history) == d;
    ScheduleTied(cfg, c, d, |b.core.orders|, openNow, start, ScriptFor(b, r.client),
                 r.day && r.instrument.assetClass != Crypto);
  }

  lemma AddedKinds(orders: seq<Order>, o: Order)
    ensures SameKinds(orders, orders + [o])
  {
  }

  lemma {:induction false} CancelTied(cfg: Config, a: World, b: World, now: int, id: nat)
    requires WorldOk(cfg, a) && WorldOk(cfg, b) && SameWorld(a, b)
    ensures var s, t := CancelOrder(cfg, a, now, id), CancelOrder(cfg, b, now, id);
            s.Ok? && t.Ok? && s.value.answer == t.value.answer && SameWorld(s.value.world, t.value.world)
  {
    SameViewBeside(b.core, a.core);
    hide SameButTies, Finished, AllSound, SameKinds, Sane, OrdersOk, ChecksOk;
    CancelOk(cfg, a, now, id);
    CancelOk(cfg, b, now, id);
    if id < |b.core.orders| && !IsTerminal(b.core.orders[id].status) {
      var orders := b.core.orders[id := Finished(b.core.orders[id], Canceled, now)];
      FinishedKinds(b.core.orders, id, Canceled, now);
      OrdersTied(b.core, a.core, orders, b.core.draws, b.core.history);
      assert b.core.(orders := orders, draws := b.core.draws, history := b.core.history) == b.core.(orders := orders);
      assert a.core.(orders := orders, draws := b.core.draws, history := b.core.history) == a.core.(orders := orders);
    }
  }

  lemma {:induction false} SeedTied(cfg: Config, a: World, b: World, now: int, cmd: Command)
    requires a.core.history != [] && b.core.history != [] && SameWorld(a, b) && cmd.SeedPosition? && Materializes(cmd)
    ensures var s, t := Act(cfg, a, now, cmd), Act(cfg, b, now, cmd);
            s.Ok? && t.Ok? && s.value.answer == t.value.answer && SameWorld(s.value.world, t.value.world)
  {
    SameViewBeside(b.core, a.core);
    hide SameButTies, SameKinds, StateAt, Record;
    SelfKinds(b.core.orders);
    var history := SeedCore(b.core, now, cmd).history;
    OrdersTied(b.core, a.core, b.core.orders, b.core.draws, history);
    assert b.core.(orders := b.core.orders, draws := b.core.draws, history := history) == SeedCore(b.core, now, cmd);
    assert a.core.(orders := b.core.orders, draws := b.core.draws, history := history) == SeedCore(a.core, now, cmd);
  }

  lemma SelfKinds(orders: seq<Order>)
    ensures SameKinds(orders, orders)
  {
  }

  lemma {:induction false} ActTied(cfg: Config, a: World, b: World, now: int, cmd: Command)
    requires WorldOk(cfg, a) && WorldOk(cfg, b) && SameWorld(a, b) && Materializes(cmd)
    ensures a.core.history != [] && b.core.history != []
    ensures var s, t := Act(cfg, a, now, cmd), Act(cfg, b, now, cmd);
            s.Ok? && t.Ok? && s.value.answer == t.value.answer && SameWorld(s.value.world, t.value.world)
  {
    assert a.core.history != [] && b.core.history != [];
    hide SameWorld, WorldOk, PlaceOrder, CancelOrder;
    match cmd
    case Read =>
    case SeedPosition(_, _, _, _, _) => SeedTied(cfg, a, b, now, cmd);
    case Place(r) => PlaceTied(cfg, a, b, now, r);
    case Cancel(id) => CancelTied(cfg, a, b, now, id);
  }

  // ---- a polled world and the same world without the reads ----

  /** `b`, read up to `lag`, would agree with `a` up to ties. */
  ghost predicate CatchesUp(cfg: Config, a: World, b: World, lag: int)
    requires b.core.history != []
  {
    Drain(cfg, b.core, lag).Ok? && SameButTies(Drain(cfg, b.core, lag).value, a.core)
  }

  /** `a` has been read up to `lag`; `b` has not been read since the two last agreed up to ties. */
  ghost predicate TiedBehind(cfg: Config, a: World, b: World, lag: Option<int>)
    requires b.core.history != []
  {
    && SameDesk(a, b)
    && (lag.None? ==> a.materializedAt == b.materializedAt && SameButTies(b.core, a.core))
    && (lag.Some? ==> CatchesUp(cfg, a, b, lag.value) && ObservedBy(a, lag.value) && Floor(b) <= lag.value)
  }

  /** Along the run without the inserted reads: every quote scripted after such a read is later than that read and
      fair, as the caller can check before scripting it. */
  ghost predicate QuotesFair(cfg: Config, b: World, lastRead: Option<int>, script: seq<Call>)
    requires b.core.history != []
    decreases |script|
  {
    script == [] ||
    var now, cmd := script[0].now, script[0].cmd;
    if cmd.Read? then QuotesFair(cfg, b, Some(now), script[1..])
    else
      && (cmd.SetQuote? && lastRead.Some? ==> cmd.quote.at > lastRead.value
                                              && Fair(cfg, b.core, cmd.instrument, cmd.quote, lastRead.value))
      && (StepKeepsHistory(cfg, b, now, cmd);
          var s := Step(cfg, b, now, cmd);
          s.Ok? ==> QuotesFair(cfg, s.value.world, if Materializes(cmd) then None else lastRead, script[1..]))
  }

  /** The same answers and, up to ties, the same timeline; or an error in both. */
  ghost predicate SameObservation(r: Result<(Core, seq<Answer>), ScriptError>,
                                  s: Result<(Core, seq<Answer>), ScriptError>) {
    (r.Err? <==> s.Err?) && (r.Ok? ==> r.value.1 == s.value.1 && SameButTies(r.value.0, s.value.0))
  }

  /** Reading both at `now` brings them level. */
  lemma {:induction false} ReadLevels(cfg: Config, a: World, b: World, lag: Option<int>, now: int)
    requires DelaysOk(cfg) && Steadfast(cfg, b) && Floor(b) <= now && (lag.Some? ==> lag.value <= now)
    requires a.core.history != [] && TiedBehind(cfg, a, b, lag)
    ensures SameOutcome(Drain(cfg, b.core, now), Drain(cfg, a.core, now))
  {
    hide Steadfast, Steady, SameButTies, Drain, SoundQueue;
    SteadfastSteady(cfg, b);
    SteadySound(b.core, Floor(b));
    if lag.Some? {
      DrainTwice(cfg, b.core, lag.value, now);
      DrainSteady(cfg, b.core, Floor(b), lag.value);
      var m := Drain(cfg, b.core, lag.value).value;
      SteadySound(m, lag.value);
      DrainTied(cfg, m, a.core, lag.value, now);
    } else {
      DrainTied(cfg, b.core, a.core, Floor(b), now);
    }
  }

  lemma SteadySound(c: Core, floor: int)
    requires Steady(c, floor)
    ensures SoundQueue(c, floor) && c.history != []
  {
  }

  /** A call that materializes answers both alike and brings both level, or stops both. */
  lemma {:induction false} MaterializingTied(cfg: Config, a: World, b: World, lag: Option<int>, now: int, cmd: Command)
    requires ValidConfig(cfg) && DelaysOk(cfg) && Steadfast(cfg, a) && Steadfast(cfg, b) && Materializes(cmd)
    requires Floor(a) <= now && Floor(b) <= now && (lag.Some? ==> lag.value <= now) && TiedBehind(cfg, a, b, lag)
    ensures var sa, sb := Step(cfg, a, now, cmd), Step(cfg, b, now, cmd);
            && (sa.Err? <==> sb.Err?)
            && (sa.Ok? ==> && sa.value.answer == sb.value.answer && sb.value.world.core.history != []
                           && TiedBehind(cfg, sa.value.world, sb.value.world, None))
  {
    hide Drain, Scripted, Act, WorldOk, CheckInvariants, TimelineOk, SameButTies, PostsAreDue, ParkedHome, InOrder;
    SteadfastSteady(cfg, a);
    SteadfastSteady(cfg, b);
    ReadLevels(cfg, a, b, lag, now);
    MaterializeOk(cfg, a, now);
    MaterializeOk(cfg, b, now);
    MaterializeScripted(cfg, a, now);
    MaterializeScripted(cfg, b, now);
    var ma, mb := Materialize(cfg, a, now), Materialize(cfg, b, now);
    if ma.Ok? {
      ActTied(cfg, ma.value, mb.value, now, cmd);
      StepKeepsHistory(cfg, b, now, cmd);
    }
  }

  /** A quote scripted on both. */
  lemma {:induction false} QuotingTied(cfg: Config, a: World, b: World, lag: Option<int>, k: Instrument, q: Quote,
                                       allowCrossed: bool)
    requires DelaysOk(cfg) && Steadfast(cfg, b) && a.core.history != [] && TiedBehind(cfg, a, b, lag)
    requires QuoteAccepted(b, k, q, allowCrossed)
    requires lag.Some? ==> q.at > lag.value && Fair(cfg, b.core, k, q, lag.value)
    ensures WithQuote(b.core, k, q).history != []
    ensures lag.None? ==> SameButTies(WithQuote(b.core, k, q), WithQuote(a.core, k, q))
    ensures lag.Some? ==>
            CatchesUp(cfg, a.(core := WithQuote(a.core, k, q)), b.(core := WithQuote(b.core, k, q)), lag.value)
  {
    hide Drain, WithQuote, Steadfast, Steady, Fair, SameButTies;
    SteadfastSteady(cfg, b);
    KeepsHistory(b.core, k, q);
    if lag.None? {
      QuoteTied(b.core, a.core, k, q);
    } else {
      QuoteIsLater(b, k, q, allowCrossed, lag.value);
      ReadEither(cfg, b.core, k, q, Floor(b), lag.value);
      var m := Drain(cfg, b.core, lag.value).value;
      QuoteTied(m, a.core, k, q);
      TiedChain(Drain(cfg, WithQuote(b.core, k, q), lag.value).value, WithQuote(m, k, q), WithQuote(a.core, k, q));
    }
  }

  lemma QuoteIsLater(b: World, k: Instrument, q: Quote, allowCrossed: bool, lag: int)
    requires b.core.history != [] && Scripted(b) && QuoteAccepted(b, k, q, allowCrossed) && Floor(b) <= lag < q.at
    ensures ParkedBefore(b.core.parked, q.at) && forall x :: x in SeriesOf(b.core.quotes, k) ==> x.at < q.at
  {
    var series := SeriesOf(b.core.quotes, k);
    if series != [] {
      var last := |series| - 1;
      forall x | x in series ensures x.at <= series[last].at {
        var i :| 0 <= i < |series| && series[i] == x;
        assert i == last || series[i].at < series[last].at;
      }
    }
  }

  lemma SameAcceptance(a: World, b: World, cmd: Command, from: int)
    requires SameDesk(a, b) && a.core.quotes == b.core.quotes
    requires a.materializedAt == b.materializedAt
             || (ObservedBy(a, from) && ObservedBy(b, from) && (cmd.SetQuote? ==> cmd.quote.at > from))
    ensures cmd.SetQuote? ==> QuoteAccepted(a, cmd.instrument, cmd.quote, cmd.allowCrossed)
                              == QuoteAccepted(b, cmd.instrument, cmd.quote, cmd.allowCrossed)
    ensures cmd.ScheduleFills? ==> ScheduleAccepted(a, cmd) == ScheduleAccepted(b, cmd)
  {
    hide ScriptAccepted;
  }

  lemma {:induction false} BehindQuotes(cfg: Config, a: World, b: World, lag: Option<int>)
    requires b.core.history != [] && TiedBehind(cfg, a, b, lag)
    ensures a.core.quotes == b.core.quotes
  {
    hide Drain;
    if lag.Some? {
      DrainQuotes(cfg, b.core, lag.value);
      SameFields(Drain(cfg, b.core, lag.value).value, a.core);
    } else {
      SameFields(b.core, a.core);
    }
  }

  /** A scripting call reads nothing, so it does the same to both. */
  lemma {:induction false} ConfiguringTied(cfg: Config, a: World, b: World, lag: Option<int>, cmd: Command)
    requires DelaysOk(cfg) && Steadfast(cfg, b) && a.core.history != [] && TiedBehind(cfg, a, b, lag)
             && !Materializes(cmd)
    requires cmd.SetQuote? && lag.Some? ==>
             cmd.quote.at > lag.value && Fair(cfg, b.core, cmd.instrument, cmd.quote, lag.value)
    ensures Configure(a, cmd).answer == Configure(b, cmd).answer && Configure(b, cmd).world.core.history != []
    ensures TiedBehind(cfg, Configure(a, cmd).world, Configure(b, cmd).world, lag)
  {
    hide Drain, WithQuote, Fair, QuoteAccepted, ScheduleAccepted, Steadfast, CatchesUp, SameButTies;
    SteadfastSteady(cfg, b);
    BehindQuotes(cfg, a, b, lag);
    SameAcceptance(a, b, cmd, if lag.Some? then lag.value else 0);
    if cmd.SetQuote? && QuoteAccepted(b, cmd.instrument, cmd.quote, cmd.allowCrossed) {
      QuotingTied(cfg, a, b, lag, cmd.instrument, cmd.quote, cmd.allowCrossed);
      KeepsHistory(b.core, cmd.instrument, cmd.quote);
    } else {
      SameCore(cfg, a, b, Configure(a, cmd).world, Configure(b, cmd).world, lag);
    }
  }

  lemma SameCore(cfg: Config, a: World, b: World, c: World, d: World, lag: Option<int>)
    requires b.core.history != [] && TiedBehind(cfg, a, b, lag) && c.core == a.core && d.core == b.core
    requires SameDesk(c, d) && c.materializedAt == a.materializedAt && d.materializedAt == b.materializedAt
    ensures TiedBehind(cfg, c, d, lag)
  {
    hide Drain, SameButTies;
  }

  // ---- whole scripts ----

  /** The run without reads cannot outlive an error that a read has already met. */
  lemma {:induction false} DoomedRun(cfg: Config, b: World, lag: int, script: seq<Call>, end: int)
    requires ValidConfig(cfg) && DelaysOk(cfg) && Steadfast(cfg, b) && Floor(b) <= lag <= end
    requires Drain(cfg, b.core, lag).Err? && ClockForward(lag, script) && EndsBy(script, end)
    requires QuotesFair(cfg, b, Some(lag), script)
    ensures Observe(cfg, b, WithoutReads(script), end).Err?
    decreases |script|
  {
    hide Steadfast, Step, Drain;
    SteadfastSteady(cfg, b);
    if script == [] {
      DrainTwice(cfg, b.core, lag, end);
    } else {
      var now, cmd, rest := script[0].now, script[0].cmd, script[1..];
      assert EndsBy(rest, end) && now <= end;
      if cmd.Read? {
        DrainTwice(cfg, b.core, lag, now);
        DoomedRun(cfg, b, now, rest, end);
        assert WithoutReads(script) == WithoutReads(rest);
      } else if Materializes(cmd) {
        DrainTwice(cfg, b.core, lag, now);
        assert WithoutReads(script) == [script[0]] + WithoutReads(rest);
        StepOfDoomed(cfg, b, now, cmd);
      } else {
        DoomedConfiguring(cfg, b, lag, script, end);
      }
    }
  }

  lemma {:induction false} StepOfDoomed(cfg: Config, b: World, now: int, cmd: Command)
    requires b.core.history != [] && Materializes(cmd) && Drain(cfg, b.core, now).Err?
    ensures Step(cfg, b, now, cmd).Err?
  {
    hide Drain;
  }

  lemma {:induction false} DoomedConfiguring(cfg: Config, b: World, lag: int, script: seq<Call>, end: int)
    requires ValidConfig(cfg) && DelaysOk(cfg) && Steadfast(cfg, b) && Floor(b) <= lag <= end
    requires script != [] && !Materializes(script[0].cmd)
    requires Drain(cfg, b.core, lag).Err? && ClockForward(lag, script) && EndsBy(script, end)
    requires QuotesFair(cfg, b, Some(lag), script)
    ensures Observe(cfg, b, WithoutReads(script), end).Err?
    decreases |script|, 0
  {
    hide Steadfast, Drain, WithQuote, Fair, QuoteAccepted, ScheduleAccepted;
    SteadfastSteady(cfg, b);
    var now, cmd, rest := script[0].now, script[0].cmd, script[1..];
    var next := Configure(b, cmd).world;
    ConfiguredFloor(cfg, b, lag, now, cmd);
    if cmd.SetQuote? && QuoteAccepted(b, cmd.instrument, cmd.quote, cmd.allowCrossed) {
      QuoteIsLater(b, cmd.instrument, cmd.quote, cmd.allowCrossed, lag);
      ReadEither(cfg, b.core, cmd.instrument, cmd.quote, Floor(b), lag);
    }
    assert Drain(cfg, next.core, lag).Err?;
    ClockEarlier(lag, now, rest);
    assert EndsBy(rest, end);
    DoomedRun(cfg, next, lag, rest, end);
    assert WithoutReads(script) == [script[0]] + WithoutReads(rest);
    assert WithoutReads(script)[1..] == WithoutReads(rest);
  }

  lemma ConfiguredFloor(cfg: Config, w: World, lag: int, now: int, cmd: Command)
    requires ValidConfig(cfg) && DelaysOk(cfg) && Steadfast(cfg, w) && !Materializes(cmd) && Floor(w) <= lag <= now
    ensures w.core.history != []
    ensures var next := Configure(w, cmd).world; Steadfast(cfg, next) && next.core.history != [] && Floor(next) <= lag
  {
    hide WorldOk, PostsAreDue, ParkedHome, TimelineOk, PastSame, WithQuote;
    SteadfastSteady(cfg, w);
    StepSteadfast(cfg, w, now, cmd);
    SteadfastSteady(cfg, Configure(w, cmd).world);
    ConfigureTimeline(w, cmd);
  }

  /** A call that is not a read, made by both. */
  lemma {:induction false} SharedTied(cfg: Config, a: World, b: World, lag: Option<int>, from: int, now: int,
                                      cmd: Command)
    requires ValidConfig(cfg) && DelaysOk(cfg) && Steadfast(cfg, a) && Steadfast(cfg, b) && TiedBehind(cfg, a, b, lag)
    requires Floor(a) <= from && Floor(b) <= from && (lag.Some? ==> lag.value <= from) && from <= now
    requires cmd.SetQuote? && lag.Some? ==>
             cmd.quote.at > lag.value && Fair(cfg, b.core, cmd.instrument, cmd.quote, lag.value)
    ensures var sa, sb := Step(cfg, a, now, cmd), Step(cfg, b, now, cmd);
            && (sa.Err? <==> sb.Err?)
            && (sa.Ok? ==>
                  && sa.value.answer == sb.value.answer
                  && Steadfast(cfg, sa.value.world) && Steadfast(cfg, sb.value.world)
                  && Floor(sa.value.world) <= now && Floor(sb.value.world) <= now
                  && TiedBehind(cfg, sa.value.world, sb.value.world, if Materializes(cmd) then None else lag))
  {
    hide Steadfast, TiedBehind, Materialize, Act, Configure, Fair;
    SteadfastSteady(cfg, a);
    SteadfastSteady(cfg, b);
    if Materializes(cmd) {
      MaterializingTied(cfg, a, b, lag, now, cmd);
    } else {
      ConfiguringTied(cfg, a, b, lag, cmd);
    }
    StepSteadfast(cfg, a, now, cmd);
    StepSteadfast(cfg, b, now, cmd);
  }

  lemma {:induction false} SharedTiedCall(cfg: Config, a: World, b: World, lag: Option<int>, from: int,
                                          script: seq<Call>, end: int)
    requires ValidConfig(cfg) && DelaysOk(cfg) && Steadfast(cfg, a) && Steadfast(cfg, b) && TiedBehind(cfg, a, b, lag)
    requires Floor(a) <= from && Floor(b) <= from && (lag.Some? ==> lag.value <= from)
    requires script != [] && !script[0].cmd.Read?
    requires ClockForward(from, script) && EndsBy(script, end) && from <= end && QuotesFair(cfg, b, lag, script)
    ensures SameObservation(Observe(cfg, b, WithoutReads(script), end), Observe(cfg, a, script, end))
    decreases |script|, 0
  {
    hide Step, Drain, TiedBehind, Steadfast, Fair, SameButTies;
    SteadfastSteady(cfg, a);
    SteadfastSteady(cfg, b);
    var now, cmd, rest := script[0].now, script[0].cmd, script[1..];
    assert WithoutReads(script) == [script[0]] + WithoutReads(rest);
    assert WithoutReads(script)[1..] == WithoutReads(rest);
    assert EndsBy(rest, end) && now <= end;
    SharedTied(cfg, a, b, lag, from, now, cmd);
    var sa, sb := Step(cfg, a, now, cmd), Step(cfg, b, now, cmd);
    if sa.Ok? {
      PollTied(cfg, sa.value.world, sb.value.world, if Materializes(cmd) then None else lag, now, rest, end);
    }
  }

  /** Reads inserted anywhere change no answer and no failure, and the timeline only up to ties. */
  lemma {:induction false} PollTied(cfg: Config, a: World, b: World, lag: Option<int>, from: int, script: seq<Call>,
                                    end: int)
    requires ValidConfig(cfg) && DelaysOk(cfg) && Steadfast(cfg, a) && Steadfast(cfg, b) && TiedBehind(cfg, a, b, lag)
    requires Floor(a) <= from && Floor(b) <= from && (lag.Some? ==> lag.value <= from)
    requires ClockForward(from, script) && EndsBy(script, end) && from <= end && QuotesFair(cfg, b, lag, script)
    ensures SameObservation(Observe(cfg, b, WithoutReads(script), end), Observe(cfg, a, script, end))
    decreases |script|, 1
  {
    hide Drain, TiedBehind, Steadfast, SameButTies, Fair, Step;
    SteadfastSteady(cfg, a);
    SteadfastSteady(cfg, b);
    if script == [] {
      ReadLevels(cfg, a, b, lag, end);
    } else if script[0].cmd.Read? {
      PolledRead(cfg, a, b, lag, from, script, end);
    } else {
      SharedTiedCall(cfg, a, b, lag, from, script, end);
    }
  }

  lemma {:induction false} ReadAlone(cfg: Config, a: World, b: World, lag: Option<int>, now: int)
    requires ValidConfig(cfg) && DelaysOk(cfg) && Steadfast(cfg, a) && Steadfast(cfg, b) && TiedBehind(cfg, a, b, lag)
    requires Floor(a) <= now && Floor(b) <= now && (lag.Some? ==> lag.value <= now)
    ensures a.core.history != []
    ensures var r := Step(cfg, a, now, Read);
            && (r.Err? ==> Drain(cfg, b.core, now).Err?)
            && (r.Ok? ==> Steadfast(cfg, r.value.world) && Floor(r.value.world) <= now
                          && TiedBehind(cfg, r.value.world, b, Some(now)))
  {
    hide Drain, Steadfast, SameButTies, CheckInvariants, Scripted;
    SteadfastSteady(cfg, a);
    SteadfastSteady(cfg, b);
    SteadfastWorld(cfg, a);
    ReadLevels(cfg, a, b, lag, now);
    StepSteadfast(cfg, a, now, Read);
    MaterializeOk(cfg, a, now);
    MaterializeScripted(cfg, a, now);
  }

  lemma SteadfastWorld(cfg: Config, w: World)
    requires Steadfast(cfg, w)
    ensures WorldOk(cfg, w)
  {
  }

  lemma {:induction false} PolledRead(cfg: Config, a: World, b: World, lag: Option<int>, from: int, script: seq<Call>,
                                      end: int)
    requires ValidConfig(cfg) && DelaysOk(cfg) && Steadfast(cfg, a) && Steadfast(cfg, b) && TiedBehind(cfg, a, b, lag)
    requires Floor(a) <= from && Floor(b) <= from && (lag.Some? ==> lag.value <= from)
    requires script != [] && script[0].cmd.Read?
    requires ClockForward(from, script) && EndsBy(script, end) && from <= end && QuotesFair(cfg, b, lag, script)
    ensures SameObservation(Observe(cfg, b, WithoutReads(script), end), Observe(cfg, a, script, end))
    decreases |script|, 0
  {
    hide Drain, TiedBehind, Steadfast, SameButTies, Fair, Step;
    SteadfastSteady(cfg, a);
    SteadfastSteady(cfg, b);
    var now, rest := script[0].now, script[1..];
    assert EndsBy(rest, end) && now <= end;
    assert WithoutReads(script) == WithoutReads(rest);
    ReadAlone(cfg, a, b, lag, now);
    var r := Step(cfg, a, now, Read);
    if r.Ok? {
      SteadfastSteady(cfg, r.value.world);
      PollTied(cfg, r.value.world, b, Some(now), now, rest, end);
      var ran := Run(cfg, r.value.world, rest);
      assert ran.Ok? ==> [] + ran.value.answers == ran.value.answers;
    } else {
      DoomedRun(cfg, b, now, rest, end);
    }
  }

  /** From one world: with its reads or without, a script whose quotes are fair fails in both or in neither, gives the
      same answers, and a last read finds the same account at every instant, the same orders, quotes, parked fills,
      batches and count of draws, and the same activities but for draw numbers and the order within an instant. */
  lemma {:induction false} ReadsOnlyReorder(cfg: Config, w: World, from: int, script: seq<Call>, end: int)
    requires ValidConfig(cfg) && DelaysOk(cfg) && Steadfast(cfg, w) && Floor(w) <= from
    requires ClockForward(from, script) && EndsBy(script, end) && from <= end && QuotesFair(cfg, w, None, script)
    ensures w.core.history != []
    ensures var without, with := Observe(cfg, w, WithoutReads(script), end), Observe(cfg, w, script, end);
            && (without.Err? <==> with.Err?)
            && (without.Ok? ==> && without.value.1 == with.value.1 && ViewOf(without.value.0) == ViewOf(with.value.0)
                                && SameButTies(without.value.0, with.value.0))
  {
    hide Steadfast, PlainQueue, PlainActivities, Connected;
    SteadfastSteady(cfg, w);
    SameIsTied(w.core);
    PollTied(cfg, w, w, None, from, script, end);
  }

  /** The scripts without ties are among the fair ones. */
  lemma {:induction false} SafeIsFair(cfg: Config, b: World, lastRead: Option<int>, script: seq<Call>)
    requires b.core.history != [] && QuotesSafe(cfg, b, lastRead, script)
    ensures QuotesFair(cfg, b, lastRead, script)
    decreases |script|
  {
    hide Step, Untied, Fair;
    if script != [] {
      var now, cmd := script[0].now, script[0].cmd;
      if cmd.Read? {
        SafeIsFair(cfg, b, Some(now), script[1..]);
      } else {
        if cmd.SetQuote? && lastRead.Some? { UntiedIsFair(cfg, b.core, cmd.instrument, cmd.quote, lastRead.value); }
        StepKeepsHistory(cfg, b, now, cmd);
        var s := Step(cfg, b, now, cmd);
        if s.Ok? { SafeIsFair(cfg, s.value.world, if Materializes(cmd) then None else lastRead, script[1..]); }
      }
    }
  }
}
