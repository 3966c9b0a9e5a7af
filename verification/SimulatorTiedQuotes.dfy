/** Reading and then scripting a later quote, or scripting it and then reading: the same up to ties, whatever else is
    queued for the quote's instant, unless it moves the position of the quote's own symbol. */
module SimulatorTiedQuotes {
  import opened Common
  import opened SimulatorModel
  import opened SimulatorCommands
  import opened SimulatorOrders
  import opened SimulatorPolling
  import opened SimulatorTimeline
  import opened SimulatorSwaps
  import opened SimulatorViews
  import opened SimulatorEffects
  import opened SimulatorPushes
  import opened SimulatorTies

  // ---- a caller's condition ----

  /** A fill of an order to buy the instrument's own coin. */
  predicate BuysCoin(orders: seq<Order>, k: Instrument, e: Event) {
    && e.Fill? && e.orderId < |orders| && orders[e.orderId].instrument.symbol == k.symbol
    && orders[e.orderId].instrument.assetClass == Crypto && orders[e.orderId].side == Buy
  }

  /** A coin purchase at `at` would post its fee in the coin at the instant. */
  predicate CoinFeeLandsOn(cfg: Config, at: int, instant: int) {
    cfg.fees.Some? && instant == at + cfg.fees.value.posting.cfeeAssetDelay
  }

  /** Nothing of the same symbol on another instrument can come to wait for a quote at the very instant. */
  ghost predicate NoSharerWaits(c: Core, k: Instrument, instant: int, now: int) {
    forall t, other :: t in c.queue && t.at <= now && other != k && other.symbol == k.symbol
      && MayWait(c.orders, other, t.event)
      ==> !QuotedAt(c.quotes, other, instant)
  }

  /** No purchase of the coin that can happen up to `now` posts its fee exactly at the instant. */
  ghost predicate CoinFeesMiss(cfg: Config, c: Core, k: Instrument, now: int, instant: int) {
    && (forall t :: t in c.queue && t.at <= now && BuysCoin(c.orders, k, t.event) ==>
       !CoinFeeLandsOn(cfg, t.at, instant))
    && (forall own: Instrument, at: int ::
          own.symbol == k.symbol && own.assetClass == Crypto && at <= now && QuotedAt(c.quotes, own, at) ==>
            !CoinFeeLandsOn(cfg, at, instant))
  }

  /** Either nothing waits for the new quote, or nothing that moves its own symbol's position can be queued for
      exactly its instant by what is already due at `now`. Any number of other symbols may be quoted for that
      instant. */
  ghost predicate Fair(cfg: Config, c: Core, k: Instrument, q: Quote, now: int) {
    NoneWaits(c, k, now) || (NoSharerWaits(c, k, q.at, now) && CoinFeesMiss(cfg, c, k, now, q.at))
  }

  /** The same, for one event about to be applied at `at`. */
  ghost predicate FairStep(cfg: Config, c: Core, k: Instrument, instant: int, at: int, e: Event) {
    || (ParkedOn(c.parked, k) == [] && !MayWait(c.orders, k, e))
    || (&& (BuysCoin(c.orders, k, e) ==> !CoinFeeLandsOn(cfg, at, instant))
        && forall other :: other != k && other.symbol == k.symbol && MayWait(c.orders, other, e) ==>
             !QuotedAt(c.quotes, other, instant))
  }

  /** Fills wait on their own instrument, and only limit fills do. */
  ghost predicate ParkedHome(c: Core) {
    forall k :: k in c.parked ==> forall w :: w in c.parked[k] ==> MayWait(c.orders, k, w.event)
  }

  /** Without ties at all there are no unfair ones. */
  lemma UntiedIsFair(cfg: Config, c: Core, k: Instrument, q: Quote, now: int)
    requires Untied(cfg, c, k, q, now)
    ensures Fair(cfg, c, k, q, now)
  {
    if !NoneWaits(c, k, now) {
      forall own: Instrument, at: int | own.symbol == k.symbol && at <= now && QuotedAt(c.quotes, own, at)
        ensures !CoinFeeLandsOn(cfg, at, q.at)
      {
        var x :| x in SeriesOf(c.quotes, own) && x.at == at;
        assert own in c.quotes && x in c.quotes[own] && !FeeLandsOn(cfg, x.at, q.at);
      }
    }
  }

  /** One instrument to a symbol and no fees in coins: every quote is fair, whatever else is quoted for its instant. */
  lemma DistinctSymbolsAreFair(cfg: Config, c: Core, k: Instrument, q: Quote, now: int)
    requires forall o :: o in c.orders && o.instrument.symbol == k.symbol ==> o.instrument == k
    requires forall own :: own in c.quotes && own.symbol == k.symbol ==> own == k
    requires k.assetClass != Crypto || cfg.fees.None?
    ensures Fair(cfg, c, k, q, now)
  {
    forall e | BuysCoin(c.orders, k, e) ensures cfg.fees.None? { assert c.orders[e.orderId] in c.orders; }
    forall other: Instrument, e | other.symbol == k.symbol && MayWait(c.orders, other, e) ensures other == k {
      assert c.orders[e.orderId] in c.orders;
    }
  }

  // ---- re-arming is pushing ----

  function Armed(at: int, waiting: seq<Waiting>): seq<Timed> {
    if waiting == [] then [] else [Timed(MaxInt(at, waiting[0].since), waiting[0].event)] + Armed(at, waiting[1..])
  }

  lemma {:induction false} RearmedIsPushed(queue: seq<Timed>, at: int, waiting: seq<Waiting>)
    ensures Rearmed(queue, at, waiting) == Merge(queue, Armed(at, waiting))
    decreases |waiting|
  {
    if waiting != [] {
      var t := Timed(MaxInt(at, waiting[0].since), waiting[0].event);
      RearmedIsPushed(Insert(queue, t.at, t.event), at, waiting[1..]);
      assert ([t] + Armed(at, waiting[1..]))[1..] == Armed(at, waiting[1..]);
    }
  }

  lemma {:induction false} ArmedAre(at: int, waiting: seq<Waiting>)
    requires SinceBefore(waiting, at)
    ensures forall t :: t in Armed(at, waiting) ==> t.at == at && exists w :: w in waiting && t.event == w.event
    decreases |waiting|
  {
    if waiting != [] {
      assert waiting[0] in waiting;
      ArmedAre(at, waiting[1..]);
    }
  }

  lemma {:induction false} QuoteTied(c: Core, d: Core, k: Instrument, q: Quote)
    requires SameButTies(c, d)
    ensures SameButTies(WithQuote(c, k, q), WithQuote(d, k, q))
  {
    hide PlainQueue, PlainActivities, Connected, Merge, Rearmed, Armed;
    SameViewBeside(c, d);
    var pushed := Armed(q.at, ParkedOn(c.parked, k));
    RearmedIsPushed(c.queue, q.at, ParkedOn(c.parked, k));
    RearmedIsPushed(d.queue, q.at, ParkedOn(c.parked, k));
    PlainMerge(c.queue, pushed);
    PlainMerge(d.queue, pushed);
    MergeKeeps(c.orders, PlainQueue(c.queue), PlainQueue(d.queue), PlainQueue(pushed));
    TiedIfConnected(WithQuote(c, k, q), WithQuote(d, k, q));
  }

  /** Two groups of events that have nothing to do with each other may be pushed in either order. */
  lemma {:induction false} PushedAcross(orders: seq<Order>, queue: seq<Timed>, u: seq<Timed>, p: seq<Timed>)
    requires forall x, y :: x in u && y in p ==> FreeOf(orders, x, y)
    ensures Connected(orders, Merge(queue, u + p), Merge(queue, p + u))
    decreases |p|
  {
    if p == [] {
      assert u + p == u && p + u == u;
      Same(orders, Merge(queue, u));
    } else {
      hide Connected, FreeOf;
      var y, rest := p[0], p[1..];
      assert y in p;
      PushedEarlier(orders, queue, u, y, rest);
      var next := Insert(queue, y.at, y.event);
      forall x, z | x in u && z in rest ensures FreeOf(orders, x, z) { assert z in p; }
      PushedAcross(orders, next, u, rest);
      assert u + [y] + rest == u + p && [y] + u + rest == [y] + (u + rest) && [y] + (rest + u) == p + u;
      assert ([y] + (u + rest))[1..] == u + rest && ([y] + (rest + u))[1..] == rest + u;
      Chain(orders, Merge(queue, u + p), Merge(next, u + rest), Merge(next, rest + u));
    }
  }

  /** What an event queues, and what the quote re-arms, in either order. */
  lemma {:induction false} QueuedEither(orders: seq<Order>, queue: seq<Timed>, at: int, waiting: seq<Waiting>,
                                        pushed: seq<Timed>)
    requires forall x, y :: x in Armed(at, waiting) && y in pushed ==> FreeOf(orders, PlainTimed(x), PlainTimed(y))
    ensures Connected(orders, PlainQueue(Merge(Rearmed(queue, at, waiting), pushed)),
                      PlainQueue(Rearmed(Merge(queue, pushed), at, waiting)))
  {
    hide Connected, Merge, Rearmed, Armed, FreeOf, PlainTimed;
    var a := Armed(at, waiting);
    RearmedIsPushed(queue, at, waiting);
    RearmedIsPushed(Merge(queue, pushed), at, waiting);
    var q, u, p := PlainQueue(queue), PlainQueue(a), PlainQueue(pushed);
    PlainMerge(queue, a);
    PlainMerge(Merge(queue, a), pushed);
    PlainMerge(queue, pushed);
    PlainMerge(Merge(queue, pushed), a);
    MergeParts(q, u, p);
    MergeParts(q, p, u);
    forall x, y | x in u && y in p ensures FreeOf(orders, x, y) {
      var i :| 0 <= i < |u| && u[i] == x;
      var j :| 0 <= j < |p| && p[j] == y;
      assert a[i] in a && pushed[j] in pushed;
    }
    PushedAcross(orders, q, u, p);
  }

  // ---- one event and the quote ----

  /** What executions queue: fees, and coin fees only for purchases of a coin, at their own delay. */
  ghost predicate FeesOnly(cfg: Config, o: Order, at: int, pushed: seq<Timed>) {
    forall t :: t in pushed ==>
      || t.event.PostBatch?
      || (t.event.PostRow? && (t.event.row.coinDelta.Some? ==>
                                 o.instrument.assetClass == Crypto && o.side == Buy && CoinFeeLandsOn(cfg, at, t.at)))
  }

  lemma OwnFeeLands(cfg: Config, o: Order, at: int, qty: real, price: real, suffix: nat)
    requires cfg.fees.Some?
    ensures var own := OwnFee(cfg, o, at, qty, price, suffix); own.Some? ==> FeesOnly(cfg, o, at, [own.value])
  {
  }

  lemma SameSide(o: Order, at: int, scripted: real, price: real)
    ensures var p := WithFill(o, at, scripted, price); p.instrument == o.instrument && p.side == o.side
  {
  }

  lemma ExecuteFeesOnly(cfg: Config, c: Core, id: nat, at: int, scripted: real, price: real)
    requires c.history != [] && c.queue == [] && id < |c.orders|
    ensures var r := Execute(cfg, c, id, at, scripted, price); r.Ok? ==> FeesOnly(cfg, c.orders[id], at, r.value.queue)
  {
    hide BookFill, WithFill, AccrueAll, Charges, OwnFee, CoinFeeLandsOn;
    var qty := scripted + c.orders[id].overfill;
    var executed := Executed(cfg, c, id, at, scripted, price);
    var o := executed.orders[id];
    SameSide(c.orders[id], at, scripted, price);
    var booked := BookFill(c.history, o, at, qty, price);
    if booked.Ok? && cfg.fees.Some? {
      var paid := executed.(history := booked.value);
      OwnFeeLands(cfg, o, at, qty, price, c.draws);
      var own := OwnFee(cfg, o, at, qty, price, c.draws);
      var queued := if own.Some? then Push(paid, own.value.at, own.value.event) else paid;
      AccrueAllQueues(cfg, queued, at, Charges(cfg, o, at, qty, price));
      if own.Some? { assert queued.queue == [own.value]; }
    }
  }

  /** A fill waiting on the instrument, re-armed at the quote, and what an execution queues. */
  lemma {:induction false} ArmedFree(cfg: Config, c: Core, k: Instrument, instant: int, at: int, e: Event,
                                     pushed: seq<Timed>)
    requires ParkedHome(c) && ParkedBefore(c.parked, instant)
    requires FairStep(cfg, c, k, instant, at, e) && e.Fill?
    requires e.orderId < |c.orders| && OwnPushes(c.orders, at, e, pushed)
             && FeesOnly(cfg, c.orders[e.orderId], at, pushed)
    ensures forall x, y :: x in Armed(instant, ParkedOn(c.parked, k)) && y in pushed ==>
              FreeOf(c.orders, PlainTimed(x), PlainTimed(y))
  {
    hide QuotedAt, CoinFeeLandsOn;
    var waiting := ParkedOn(c.parked, k);
    ArmedAre(instant, waiting);
    forall x, y | x in Armed(instant, waiting) && y in pushed ensures FreeOf(c.orders, PlainTimed(x), PlainTimed(y)) {
      var w :| w in waiting && x.event == w.event;
      assert MayWait(c.orders, k, x.event);
      PlainApart(c.orders, x.event, y.event);
    }
  }

  lemma {:induction false} TakenEither(cfg: Config, c: Core, k: Instrument, q: Quote, at: int, scripted: real,
                                       price: real, e: Event)
    requires DelaysOk(cfg) && c.history != [] && e.Fill? && e.orderId < |c.orders|
    requires ParkedHome(c) && ParkedBefore(c.parked, q.at) && FairStep(cfg, c, k, q.at, at, e)
    ensures SameOutcome(Execute(cfg, WithQuote(c, k, q), e.orderId, at, scripted, price),
                        Requoted(Execute(cfg, c, e.orderId, at, scripted, price), k, q))
  {
    hide Execute, PlainQueue, PlainActivities, Connected, Merge, Rearmed, OwnPushes, FeesOnly, FairStep, FreeOf,
      PlainTimed, Armed, ParkedHome, ParkedBefore, SameKinds;
    var id := e.orderId;
    ExecuteAmong(cfg, WithQuote(c, k, q), id, at, scripted, price);
    ExecuteAmong(cfg, c, id, at, scripted, price);
    var r := Execute(cfg, Idle(c), id, at, scripted, price);
    assert Idle(WithQuote(c, k, q)) == Idle(c);
    if r.Ok? {
      ExecuteQueues(cfg, Idle(c), id, at, scripted, price, e);
      ExecuteFeesOnly(cfg, Idle(c), id, at, scripted, price);
      ArmedFree(cfg, c, k, q.at, at, e, r.value.queue);
      QueuedEither(c.orders, c.queue, q.at, ParkedOn(c.parked, k), r.value.queue);
      var x, y := Among(WithQuote(c, k, q), r.value), WithQuote(Among(c, r.value), k, q);
      ExecutedKinds(cfg, c, id, at, scripted, price);
      KindsKeepConnected(c.orders, r.value.orders, PlainQueue(x.queue), PlainQueue(y.queue));
      TiedIfConnected(x, y);
    }
  }

  lemma ExecutedKinds(cfg: Config, c: Core, id: nat, at: int, scripted: real, price: real)
    requires c.history != [] && id < |c.orders|
    ensures var r := Execute(cfg, Idle(c), id, at, scripted, price); r.Ok? ==> SameKinds(c.orders, r.value.orders)
  {
    hide Execute;
    ExecuteTerms(cfg, Idle(c), id, at, scripted, price);
    FillTerms(c.orders[id], at, scripted, price);
  }

  lemma {:induction false} PushedEither(c: Core, k: Instrument, q: Quote, t: Timed)
    requires ParkedBefore(c.parked, q.at)
    requires forall x :: x in Armed(q.at, ParkedOn(c.parked, k)) ==> FreeOf(c.orders, PlainTimed(x), PlainTimed(t))
    ensures SameButTies(Push(WithQuote(c, k, q), t.at, t.event), WithQuote(Push(c, t.at, t.event), k, q))
  {
    hide PlainQueue, PlainActivities, Connected, Merge, Rearmed, Armed, FreeOf, PlainTimed, ParkedBefore;
    QueuedEither(c.orders, c.queue, q.at, ParkedOn(c.parked, k), [t]);
    MergeOne(c.queue, t);
    MergeOne(Rearmed(c.queue, q.at, ParkedOn(c.parked, k)), t);
    TiedIfConnected(Push(WithQuote(c, k, q), t.at, t.event), WithQuote(Push(c, t.at, t.event), k, q));
  }

  lemma {:induction false} WaitsEither(cfg: Config, c: Core, k: Instrument, q: Quote, at: int, e: Event)
    requires e.Fill? && e.orderId < |c.orders| && c.orders[e.orderId].limit.Some? && at < q.at
    requires ParkedHome(c) && ParkedBefore(c.parked, q.at) && FairStep(cfg, c, k, q.at, at, e)
    requires forall x :: x in SeriesOf(c.quotes, k) ==> x.at < q.at
    ensures var own := c.orders[e.orderId].instrument;
            SameButTies(Rearm(WithQuote(c, k, q), own, at, e), WithQuote(Rearm(c, own, at, e), k, q))
  {
    hide SameButTies, Insert, Rearmed, Armed;
    var own := c.orders[e.orderId].instrument;
    var later := Later(SeriesOf(c.quotes, own), at);
    if own == k || later == [] || later[0].at != q.at || ParkedOn(c.parked, k) == [] {
      RearmExactly(c, k, q, own, at, e);
      SameIsTied(WithQuote(Rearm(c, own, at, e), k, q));
    } else {
      assert later[0] in later;
      assert QuotedAt(c.quotes, own, q.at);
      assert MayWait(c.orders, own, e) && own.symbol != k.symbol;
      var t := Timed(q.at, e);
      ArmedAre(q.at, ParkedOn(c.parked, k));
      forall x | x in Armed(q.at, ParkedOn(c.parked, k)) ensures FreeOf(c.orders, PlainTimed(x), PlainTimed(t)) {
        var w :| w in ParkedOn(c.parked, k) && x.event == w.event;
        assert MayWait(c.orders, k, x.event);
      }
      PushedEither(c, k, q, t);
    }
  }

  /** A fill that is parked, or re-armed at another instant, waits the same way before the quote and after it. */
  lemma {:induction false} RearmExactly(c: Core, k: Instrument, q: Quote, own: Instrument, at: int, e: Event)
    requires ParkedBefore(c.parked, q.at) && at < q.at
    requires var later := Later(SeriesOf(c.quotes, own), at);
             own == k || later == [] || later[0].at != q.at || ParkedOn(c.parked, k) == []
    requires forall x :: x in SeriesOf(c.quotes, k) ==> x.at < q.at
    ensures Rearm(WithQuote(c, k, q), own, at, e) == WithQuote(Rearm(c, own, at, e), k, q)
  {
    hide Insert, Rearmed;
    var later := Later(SeriesOf(c.quotes, own), at);
    if own == k || ParkedOn(c.parked, k) == [] {
      RearmCommutes(c, k, q, own, at, e);
    } else if later != [] {
      PushCommutes(c, k, q, later[0].at, e);
    } else {
      assert c.parked[own := ParkedOn(c.parked, own) + [Waiting(at, e)]] - {k}
          == (c.parked - {k})[own := ParkedOn(c.parked, own) + [Waiting(at, e)]];
    }
  }

  /** An event before a new quote's instant does the same up to ties, whether the quote is scripted before it or after
      it. */
  lemma {:induction false} EventEither(cfg: Config, c: Core, k: Instrument, q: Quote, at: int, e: Event)
    requires DelaysOk(cfg) && c.history != [] && at < q.at
    requires ParkedHome(c) && ParkedBefore(c.parked, q.at) && FairStep(cfg, c, k, q.at, at, e)
    requires forall x :: x in SeriesOf(c.quotes, k) ==> x.at < q.at
    ensures SameOutcome(Apply(cfg, WithQuote(c, k, q), at, e), Requoted(Apply(cfg, c, at, e), k, q))
  {
    hide PlanFill, Execute, Rearm, WithQuote, SameButTies, FairStep, ParkedHome, ParkedBefore, ApplyFee;
    KeepsHistory(c, k, q);
    SameExceptQuotes(c, k, q);
    if e.Fill? && e.orderId < |c.orders| && !IsTerminal(c.orders[e.orderId].status) {
      var o := c.orders[e.orderId];
      PlanIgnoresLaterQuote(c.quotes, k, q, o, at, e);
      OnlyLimitsWait(c.quotes, o, at, e);
      var plan := PlanFill(c.quotes, o, at, e);
      match plan
      case Wait => WaitsEither(cfg, c, k, q, at, e);
      case Refuse(_) =>
      case Take(scripted, price) => TakenEither(cfg, c, k, q, at, scripted, price, e);
    } else if e.Fill? {
      SameIsTied(WithQuote(c, k, q));
    } else {
      ApplyCommutes(cfg, c, k, q, at, e);
      var r := Requoted(Apply(cfg, c, at, e), k, q);
      if r.Ok? { SameIsTied(r.value); }
    }
  }

  lemma SameExceptQuotes(c: Core, k: Instrument, q: Quote)
    ensures WithQuote(c, k, q).orders == c.orders
    ensures WithQuote(c, k, q).quotes == c.quotes[k := SeriesOf(c.quotes, k) + [q]]
  {
  }

  // ---- draining ----

  /** Where a re-armed fill comes from: the event itself, at a quote of its own instrument. */
  lemma ApplyRearms(cfg: Config, c: Core, at: int, e: Event)
    requires c.history != []
    ensures var r := Apply(cfg, c, at, e);
            r.Ok? ==> forall t :: t in r.value.queue && t.event.Fill? && t !in c.queue ==>
              t.event == e && e.orderId < |c.orders| && QuotedAt(c.quotes, c.orders[e.orderId].instrument, t.at)
  {
    hide PlanFill, Execute, Insert, BookFee;
    if e.Fill? && e.orderId < |c.orders| && !IsTerminal(c.orders[e.orderId].status) {
      var o := c.orders[e.orderId];
      var plan := PlanFill(c.quotes, o, at, e);
      if plan.Wait? {
        var later := Later(SeriesOf(c.quotes, o.instrument), at);
        if later != [] {
          assert later[0] in later;
          InsertMembers(c.queue, later[0].at, e);
        }
      } else if plan.Take? {
        ExecuteQueuesFees(cfg, c, e.orderId, at, plan.scripted, plan.price);
      }
    }
  }

  lemma StillWaits(before: seq<Order>, after: seq<Order>, k: Instrument, e: Event)
    requires SameKinds(before, after) && MayWait(before, k, e)
    ensures MayWait(after, k, e)
  {
  }

  lemma ApplyParks(cfg: Config, c: Core, at: int, e: Event)
    requires c.history != []
    ensures var r := Apply(cfg, c, at, e);
            r.Ok? ==> forall k, w ::
              k in r.value.parked && w in r.value.parked[k] && !(k in c.parked && w in c.parked[k]) ==>
              w.event == e && MayWait(c.orders, k, e)
  {
    hide PlanFill, Execute, Insert, BookFee;
    if e.Fill? && e.orderId < |c.orders| && !IsTerminal(c.orders[e.orderId].status) {
      var o := c.orders[e.orderId];
      OnlyLimitsWait(c.quotes, o, at, e);
      var plan := PlanFill(c.quotes, o, at, e);
      if plan.Take? { ExecuteTerms(cfg, c, e.orderId, at, plan.scripted, plan.price); }
    }
  }

  lemma ApplyKeepsHome(cfg: Config, c: Core, at: int, e: Event)
    requires c.history != [] && ParkedHome(c)
    ensures var r := Apply(cfg, c, at, e); r.Ok? ==> ParkedHome(r.value)
  {
    hide Apply, SameKinds, MayWait;
    var r := Apply(cfg, c, at, e);
    ApplyParks(cfg, c, at, e);
    OrdersKeepKinds(cfg, c, at, e);
    if r.Ok? {
      forall k, w | k in r.value.parked && w in r.value.parked[k] ensures MayWait(r.value.orders, k, w.event) {
        StillWaits(c.orders, r.value.orders, k, w.event);
      }
    }
  }

  lemma HeadIsFair(cfg: Config, c: Core, k: Instrument, q: Quote, now: int)
    requires c.queue != [] && c.queue[0].at <= now && Fair(cfg, c, k, q, now)
    ensures FairStep(cfg, Popped(c), k, q.at, c.queue[0].at, c.queue[0].event)
  {
    hide CoinFeeLandsOn, QuotedAt;
    assert c.queue[0] in c.queue;
  }

  lemma ApplySides(cfg: Config, c: Core, at: int, e: Event)
    requires c.history != []
    ensures var r := Apply(cfg, c, at, e);
            r.Ok? ==> |r.value.orders| == |c.orders| && forall i :: 0 <= i < |c.orders| ==>
              r.value.orders[i].side == c.orders[i].side
  {
    hide ApplyFee, PlanFill, Execute, Insert, WithFill;
    if e.PostBatch? || e.PostRow? {
      ApplyFeeShrinks(cfg, c, at, e);
    } else if e.Fill? && e.orderId < |c.orders| && !IsTerminal(c.orders[e.orderId].status) {
      var o := c.orders[e.orderId];
      var plan := PlanFill(c.quotes, o, at, e);
      if plan.Take? {
        SameSide(o, at, plan.scripted, plan.price);
        ExecuteTerms(cfg, c, e.orderId, at, plan.scripted, plan.price);
      }
    }
  }

  /** Every fill left to do up to `now` was left before, at its own instant or at a quote of its instrument. */
  lemma {:induction false} StillFair(cfg: Config, c: Core, k: Instrument, q: Quote, now: int)
    requires c.history != [] && c.queue != [] && c.queue[0].at <= now && Fair(cfg, c, k, q, now)
    ensures var r := Apply(cfg, Popped(c), c.queue[0].at, c.queue[0].event); r.Ok? ==> Fair(cfg, r.value, k, q, now)
  {
    hide Apply, CoinFeeLandsOn, QuotedAt;
    var head := c.queue[0];
    assert head in c.queue;
    ApplyRearms(cfg, Popped(c), head.at, head.event);
    ApplyFrame(cfg, Popped(c), head.at, head.event);
    ApplyTerms(cfg, Popped(c), head.at, head.event);
    ApplySides(cfg, Popped(c), head.at, head.event);
    var r := Apply(cfg, Popped(c), head.at, head.event);
    if r.Ok? {
      forall t | t in r.value.queue && t.event.Fill? && t !in c.queue
        ensures t.event == head.event && head.event.orderId < |c.orders|
             && QuotedAt(c.quotes, c.orders[head.event.orderId].instrument, t.at)
      {
        assert t !in Popped(c).queue;
      }
      if NoneWaits(c, k, now) {
        assert NoneWaits(r.value, k, now);
      } else {
        assert NoSharerWaits(r.value, k, q.at, now);
        assert CoinFeesMiss(cfg, r.value, k, now, q.at);
      }
    }
  }

  lemma {:induction false} QuoteSound(c: Core, k: Instrument, q: Quote, floor: int)
    requires SoundQueue(c, floor) && ParkedHome(c) && floor <= q.at
    ensures SoundQueue(WithQuote(c, k, q), floor)
  {
    hide InOrder, Rearmed;
    var waiting := ParkedOn(c.parked, k);
    RearmedInOrder(c, q.at, waiting, floor);
    SameOrder(c.(queue := Rearmed(c.queue, q.at, waiting)), WithQuote(c, k, q), floor);
    RearmedKeepsDue(c.batches, c.queue, q.at, waiting);
  }

  lemma SameOrder(c: Core, d: Core, floor: int)
    requires InOrder(c, floor) && d.history == c.history && d.queue == c.queue
    ensures InOrder(d, floor)
  {
  }

  lemma {:induction false} RearmedKeepsDue(batches: map<BatchKey, Batch>, queue: seq<Timed>, at: int,
                                           waiting: seq<Waiting>)
    requires forall t :: t in queue ==> PostDue(batches, t.at, t.event)
    requires forall w :: w in waiting ==> w.event.Fill?
    ensures forall t :: t in Rearmed(queue, at, waiting) ==> PostDue(batches, t.at, t.event)
    decreases |waiting|
  {
    if waiting != [] {
      assert waiting[0] in waiting;
      InsertMembers(queue, MaxInt(at, waiting[0].since), waiting[0].event);
      RearmedKeepsDue(batches, Insert(queue, MaxInt(at, waiting[0].since), waiting[0].event), at, waiting[1..]);
    }
  }

  /** A timeline whose fills wait at home, in order up to `floor`. */
  ghost predicate Steady(c: Core, floor: int) {
    SoundQueue(c, floor) && ParkedHome(c)
  }

  lemma {:induction false} StepSteady(cfg: Config, c: Core, floor: int)
    requires DelaysOk(cfg) && Steady(c, floor) && c.queue != []
    ensures c.history != [] && floor <= c.queue[0].at
    ensures var head := c.queue[0];
            var r := Apply(cfg, Popped(c), head.at, head.event);
            r.Ok? ==> Steady(r.value, head.at) && Weight(r.value) < Weight(c)
  {
    hide Apply, InOrder, Weight, PostsAreDue, MayWait;
    HasHistory(c, floor);
    StepSound(cfg, c, floor);
    ApplyKeepsHome(cfg, Popped(c), c.queue[0].at, c.queue[0].event);
  }

  /** Applying the head of the timeline with the quote, or scripting the quote after it. */
  lemma {:induction false} HeadEither(cfg: Config, c: Core, k: Instrument, q: Quote, floor: int, now: int)
    requires DelaysOk(cfg) && Steady(c, floor) && ParkedBefore(c.parked, q.at) && now < q.at && Fair(cfg, c, k, q, now)
    requires c.queue != [] && c.queue[0].at <= now
    requires forall x :: x in SeriesOf(c.quotes, k) ==> x.at < q.at
    ensures c.history != [] && WithQuote(c, k, q).history != []
    ensures WithQuote(c, k, q).queue != [] && WithQuote(c, k, q).queue[0] == c.queue[0]
    ensures var r, head := Apply(cfg, Popped(c), c.queue[0].at, c.queue[0].event), c.queue[0];
            var s := Apply(cfg, Popped(WithQuote(c, k, q)), head.at, head.event);
            && SameOutcome(s, Requoted(r, k, q))
            && (s.Ok? ==> SoundQueue(s.value, head.at))
  {
    hide Apply, SameOutcome, InOrder, Rearmed, FairStep, Fair, PostsAreDue, MayWait, Weight;
    var head := c.queue[0];
    HasHistory(c, floor);
    RearmedHead(c.queue, q.at, ParkedOn(c.parked, k), now);
    assert Popped(WithQuote(c, k, q)) == WithQuote(Popped(c), k, q);
    HeadIsFair(cfg, c, k, q, now);
    EventEither(cfg, Popped(c), k, q, head.at, head.event);
    QuoteSound(c, k, q, floor);
    StepSound(cfg, WithQuote(c, k, q), floor);
  }

  /** Reading and then scripting a later quote, or scripting it and then reading, up to ties: the same whatever other
      instruments are quoted for that instant. */
  lemma {:induction false} ReadEither(cfg: Config, c: Core, k: Instrument, q: Quote, floor: int, now: int)
    requires DelaysOk(cfg) && Steady(c, floor) && ParkedBefore(c.parked, q.at) && now < q.at && Fair(cfg, c, k, q, now)
    requires forall x :: x in SeriesOf(c.quotes, k) ==> x.at < q.at
    ensures c.history != []
    ensures SameOutcome(Drain(cfg, WithQuote(c, k, q), now), Requoted(Drain(cfg, c, now), k, q))
    decreases Weight(c)
  {
    SteadyHistory(c, floor);
    if c.queue == [] || c.queue[0].at > now {
      RearmedHead(c.queue, q.at, ParkedOn(c.parked, k), now);
      SameIsTied(WithQuote(c, k, q));
    } else {
      hide Drain, Apply, Steady, WithQuote, Fair, SoundQueue, ParkedBefore, Weight, SameButTies;
      var head := c.queue[0];
      StepSteady(cfg, c, floor);
      HeadEither(cfg, c, k, q, floor, now);
      DrainsHead(cfg, c, now);
      DrainsHead(cfg, WithQuote(c, k, q), now);
      var r, s := Apply(cfg, Popped(c), head.at, head.event),
        Apply(cfg, Popped(WithQuote(c, k, q)), head.at, head.event);
      if r.Ok? {
        KeepsHistory(r.value, k, q);
        StillFair(cfg, c, k, q, now);
        FrameOfHead(cfg, c, q.at, now);
        ReadEither(cfg, r.value, k, q, head.at, now);
        DrainTied(cfg, s.value, WithQuote(r.value, k, q), head.at, now);
        OutcomeChain(Drain(cfg, s.value, now), Drain(cfg, WithQuote(r.value, k, q), now),
                     Requoted(Drain(cfg, r.value, now), k, q));
      }
    }
  }

  lemma SteadyHistory(c: Core, floor: int)
    requires Steady(c, floor)
    ensures c.history != []
  {
  }

  lemma FrameOfHead(cfg: Config, c: Core, bound: int, now: int)
    requires c.history != [] && c.queue != [] && c.queue[0].at <= now < bound && ParkedBefore(c.parked, bound)
    ensures var r := Apply(cfg, Popped(c), c.queue[0].at, c.queue[0].event);
            r.Ok? ==> ParkedBefore(r.value.parked, bound) && r.value.quotes == c.quotes
  {
    hide Apply;
    ApplyFrame(cfg, Popped(c), c.queue[0].at, c.queue[0].event);
  }

  // ---- a tie that is not fair ----

  function CoinFeeOf(cfg: Config, k: Instrument, at: int, qty: real): Timed
    requires cfg.fees.Some?
  {
    Timed(at + cfg.fees.value.posting.cfeeAssetDelay,
          PostRow(FeeRow(None, 0.0, Some((k.symbol, -CoinFee(cfg.fees.value.rates, qty))))))
  }

  /** A purchase of a coin queues its fee in the coin and charges no batch. */
  lemma PurchaseQueuesCoinFee(cfg: Config, c: Core, id: nat, at: int, scripted: real, price: real)
    requires c.history != [] && c.queue == [] && id < |c.orders| && cfg.fees.Some?
    requires c.orders[id].instrument.assetClass == Crypto && c.orders[id].side == Buy
    requires CoinFee(cfg.fees.value.rates, scripted + c.orders[id].overfill) > 0.0
    ensures var r := Execute(cfg, c, id, at, scripted, price);
            r.Ok? && r.value.queue == [CoinFeeOf(cfg, c.orders[id].instrument, at, scripted + c.orders[id].overfill)]
  {
    hide StateAt, HoldingsAfterFill, WithFill, CoinFee, Record;
    SameSide(c.orders[id], at, scripted, price);
    var executed := Executed(cfg, c, id, at, scripted, price);
    var o, qty := executed.orders[id], scripted + c.orders[id].overfill;
    var paid := executed.(history := BookFill(c.history, o, at, qty, price).value);
    var own := OwnFee(cfg, o, at, qty, price, c.draws);
    assert Charges(cfg, o, at, qty, price) == [];
    assert Push(paid, own.value.at, own.value.event) == paid.(queue := [own.value]);
  }

  lemma {:induction false} NoneLater(series: seq<Quote>, at: int)
    requires forall x :: x in series ==> x.at <= at
    ensures Later(series, at) == []
  {
    NothingIn(Later(series, at));
  }

  lemma NothingIn(series: seq<Quote>)
    ensures (forall x :: x !in series) ==> series == []
  {
    assert series == [] || series[0] in series;
  }

  /** A limit order of a coin that waits for its first quote, and a purchase of the coin whose fee posts at that very
      quote. */
  ghost predicate CoinTie(cfg: Config, c: Core, k: Instrument, q: Quote, wait: Timed, buy: Timed, scripted: real,
                          price: real)
  {
    && c.history != [] && c.queue == [wait, buy] && wait.at <= buy.at < q.at && wait.event.Fill? && buy.event.Fill?
    && wait.event.orderId < |c.orders| && buy.event.orderId < |c.orders| && wait.event.orderId != buy.event.orderId
    && var w, b := c.orders[wait.event.orderId], c.orders[buy.event.orderId];
       && w.instrument == k && b.instrument == k && k.assetClass == Crypto && b.side == Buy && w.limit.Some?
       && !IsTerminal(w.status) && !IsTerminal(b.status)
       && PlanFill(c.quotes, w, wait.at, wait.event).Wait?
       && PlanFill(c.quotes, b, buy.at, buy.event) == Take(scripted, price)
       && ParkedOn(c.parked, k) == [] && (forall x :: x in SeriesOf(c.quotes, k) ==> x.at <= wait.at)
       && cfg.fees.Some? && CoinFee(cfg.fees.value.rates, scripted + b.overfill) > 0.0
       && q.at == buy.at + cfg.fees.value.posting.cfeeAssetDelay
  }

  /** The order parks, and the purchase queues its fee. */
  lemma {:induction false} ReadFirst(cfg: Config, c: Core, k: Instrument, q: Quote, wait: Timed, buy: Timed,
                                     scripted: real, price: real, now: int)
    requires CoinTie(cfg, c, k, q, wait, buy, scripted, price) && buy.at <= now < q.at
    ensures var r := Execute(cfg, Idle(c), buy.event.orderId, buy.at, scripted, price);
            var parked := c.(queue := [], parked := c.parked[k := [Waiting(wait.at, wait.event)]]);
            r.Ok? && r.value.history != [] && Drain(cfg, c, now) == Ok(Among(parked, r.value))
  {
    hide Execute, PlanFill, WithFill, CoinFee, Merge, ApplyFee;
    var id := buy.event.orderId;
    NoneLater(SeriesOf(c.quotes, k), wait.at);
    PurchaseQueuesCoinFee(cfg, Idle(c), id, buy.at, scripted, price);
    var r := Execute(cfg, Idle(c), id, buy.at, scripted, price);
    var parked := c.(queue := [], parked := c.parked[k := [Waiting(wait.at, wait.event)]]);
    assert [] + [Waiting(wait.at, wait.event)] == [Waiting(wait.at, wait.event)];
    assert Apply(cfg, Popped(c), wait.at, wait.event) == Ok(With(parked, [buy]));
    assert Popped(With(parked, [buy])) == parked && Idle(parked) == Idle(c);
    ExecuteAmong(cfg, parked, id, buy.at, scripted, price);
    assert Apply(cfg, parked, buy.at, buy.event) == Ok(Among(parked, r.value));
    MergeNone(r.value.queue);
    hide Apply, Drain;
    DrainsHead(cfg, c, now);
    DrainsHead(cfg, With(parked, [buy]), now);
    NotDue(cfg, Among(parked, r.value), now);
  }

  lemma {:induction false} NotDue(cfg: Config, c: Core, now: int)
    requires c.history != [] && (c.queue == [] || c.queue[0].at > now)
    ensures Drain(cfg, c, now) == Ok(c)
  {
  }

  /** The order is re-armed at the quote, and the purchase queues its fee behind it. */
  lemma {:induction false} QuoteFirst(cfg: Config, c: Core, k: Instrument, q: Quote, wait: Timed, buy: Timed,
                                      scripted: real, price: real, now: int)
    requires CoinTie(cfg, c, k, q, wait, buy, scripted, price) && buy.at <= now < q.at
    ensures var r := Execute(cfg, Idle(c), buy.event.orderId, buy.at, scripted, price);
            var armed := With(WithQuote(c, k, q), [Timed(q.at, wait.event)]);
            && r.Ok? && armed.history != []
            && Drain(cfg, WithQuote(c, k, q), now) == Ok(Among(armed, r.value))
  {
    hide Execute, PlanFill, WithFill, CoinFee, Merge, ApplyFee, Later;
    var id, quoted := buy.event.orderId, WithQuote(c, k, q);
    NoneLater(SeriesOf(c.quotes, k), wait.at);
    LaterAppend(SeriesOf(c.quotes, k), q, wait.at);
    assert Later(SeriesOf(quoted.quotes, k), wait.at) == [q];
    PurchaseQueuesCoinFee(cfg, Idle(c), id, buy.at, scripted, price);
    var r := Execute(cfg, Idle(c), id, buy.at, scripted, price);
    var armed := With(quoted, [Timed(q.at, wait.event)]);
    PlanIgnoresLaterQuote(c.quotes, k, q, c.orders[wait.event.orderId], wait.at, wait.event);
    PlanIgnoresLaterQuote(c.quotes, k, q, c.orders[id], buy.at, buy.event);
    assert Popped(quoted).queue == [buy];
    assert Insert([buy], q.at, wait.event) == [buy] + Insert([], q.at, wait.event);
    assert Rearm(Popped(quoted), k, wait.at, wait.event) == With(armed, [buy, Timed(q.at, wait.event)]);
    assert Apply(cfg, Popped(quoted), wait.at, wait.event) == Ok(With(armed, [buy, Timed(q.at, wait.event)]));
    assert Popped(With(armed, [buy, Timed(q.at, wait.event)])) == armed && Idle(armed) == Idle(c);
    ExecuteAmong(cfg, armed, id, buy.at, scripted, price);
    assert Apply(cfg, armed, buy.at, buy.event) == Ok(Among(armed, r.value));
    BehindArmed(Timed(q.at, wait.event), r.value.queue[0]);
    hide Apply, Drain;
    DrainsHead(cfg, quoted, now);
    DrainsHead(cfg, With(armed, [buy, Timed(q.at, wait.event)]), now);
    NotDue(cfg, Among(armed, r.value), now);
  }

  lemma {:induction false} BehindArmed(armed: Timed, fee: Timed)
    requires armed.at == fee.at
    ensures Merge([armed], [fee]) == [armed, fee] && Insert([armed], fee.at, fee.event) == [armed, fee]
  {
    MergeOne([armed], fee);
    assert Insert([armed], fee.at, fee.event) == [armed] + Insert([], fee.at, fee.event);
  }

  /** Two neighbours that are not apart stay where they are. */
  lemma {:induction false} TwoStay(orders: seq<Order>, p: seq<Timed>, q: seq<Timed>, n: nat)
    requires |p| == 2 && !Apart(orders, p[0].event, p[1].event) && ConnectedIn(orders, p, q, n)
    ensures p == q
  {
    hide Apart;
    forall m ensures !Swaps(orders, p, m) { }
  }

  /** One read between the purchase and the quote decides which of the order and the coin fee comes first, and no swap
      of events on different symbols undoes it. */
  lemma {:induction false} CoinTieReorders(cfg: Config, c: Core, k: Instrument, q: Quote, wait: Timed, buy: Timed,
                                           scripted: real, price: real, now: int)
    requires CoinTie(cfg, c, k, q, wait, buy, scripted, price) && buy.at <= now < q.at
    ensures WithQuote(c, k, q).history != [] && Drain(cfg, WithQuote(c, k, q), now).Ok? && Drain(cfg, c, now).Ok?
    ensures var fee := CoinFeeOf(cfg, k, buy.at, scripted + c.orders[buy.event.orderId].overfill);
            var armed := Timed(q.at, wait.event);
            var x, y := Drain(cfg, WithQuote(c, k, q), now).value, WithQuote(Drain(cfg, c, now).value, k, q);
            x.queue == [armed, fee] && y.queue == [fee, armed] && With(x, y.queue) == y && !SameButTies(x, y)
  {
    hide Drain, Execute, PlanFill, CoinFee, Merge, PlainQueue, PlainActivities, Apart, MayWait, SameKinds;
    var fee := CoinFeeOf(cfg, k, buy.at, scripted + c.orders[buy.event.orderId].overfill);
    var armed := Timed(q.at, wait.event);
    ReadFirst(cfg, c, k, q, wait, buy, scripted, price, now);
    QuoteFirst(cfg, c, k, q, wait, buy, scripted, price, now);
    PurchaseQueuesCoinFee(cfg, Idle(c), buy.event.orderId, buy.at, scripted, price);
    ExecutedKinds(cfg, c, buy.event.orderId, buy.at, scripted, price);
    var x, y := Drain(cfg, WithQuote(c, k, q), now).value, Drain(cfg, c, now).value;
    BehindArmed(armed, fee);
    BehindArmed(fee, armed);
    MergeNone([fee]);
    var waiting := [Waiting(wait.at, wait.event)];
    assert waiting[1..] == [] && ParkedOn(y.parked, k) == waiting;
    assert Rearmed([fee], q.at, waiting) == Rearmed(Insert([fee], q.at, wait.event), q.at, waiting[1..]);
    assert c.parked[k := [Waiting(wait.at, wait.event)]] - {k} == c.parked - {k};
    SameSymbolNotApart(c.orders, x.orders, wait.event, fee.event);
    if SameButTies(x, WithQuote(y, k, q)) { Stuck(x, WithQuote(y, k, q)); }
  }

  lemma SameSymbolNotApart(before: seq<Order>, after: seq<Order>, e: Event, f: Event)
    requires SameKinds(before, after) && Touches(before, e).Some? && Touches(before, e) == Touches(before, f)
    ensures !Apart(after, e, f)
  {
  }

  lemma {:induction false} Stuck(x: Core, y: Core)
    requires |x.queue| == 2 && SameButTies(x, y) && !Apart(x.orders, x.queue[0].event, x.queue[1].event)
    ensures PlainQueue(x.queue) == PlainQueue(y.queue)
  {
    hide Apart, Plain, PlainActivities, ConnectedIn;
    var p, q := PlainQueue(x.queue), PlainQueue(y.queue);
    PlainApart(x.orders, x.queue[0].event, x.queue[1].event);
    var n: nat :| ConnectedIn(x.orders, p, q, n);
    TwoStay(x.orders, p, q, n);
  }
}
