/** What an event queues: an event reads neither the queue nor the feed, and what it queues and reports goes behind
    what is already there. */
module SimulatorPushes {
  import opened Common
  import opened SimulatorModel
  import opened SimulatorCommands
  import opened SimulatorOrders
  import opened SimulatorPolling
  import opened SimulatorTimeline
  import opened SimulatorSwaps
  import opened SimulatorViews

  // ---- an execution, apart from everything waiting ----

  /** The timeline with nothing queued and nothing reported. */
  function Bare(c: Core): Core { c.(queue := [], activities := []) }

  /** And with nothing quoted and nothing parked: all that an execution reads. */
  function Idle(c: Core): Core { c.(quotes := map[], queue := [], parked := map[], activities := []) }

  /** What was done elsewhere, on top of what is here. */
  function Onto(c: Core, r: Core): Core {
    r.(queue := Merge(c.queue, r.queue), activities := c.activities + r.activities)
  }

  function OntoAll(c: Core, r: Outcome): Outcome {
    match r case Ok(d) => Ok(Onto(c, d)) case Err(e) => Err(e)
  }

  function Among(c: Core, r: Core): Core { Onto(c, r.(quotes := c.quotes, parked := c.parked)) }

  function AmongAll(c: Core, r: Outcome): Outcome {
    match r case Ok(d) => Ok(Among(c, d)) case Err(e) => Err(e)
  }

  lemma {:induction false} StaysSorted(queue: seq<Timed>, at: int, e: Event)
    requires Sorted(queue)
    ensures Sorted(Insert(queue, at, e))
  {
    var floor := if queue == [] || at < queue[0].at then at else queue[0].at;
    InsertSorted(queue, at, e, floor);
  }

  lemma PushAmong(c: Core, r: Core, t: int, e: Event)
    requires Sorted(r.queue)
    ensures Push(Among(c, r), t, e) == Among(c, Push(r, t, e)) && Sorted(Push(r, t, e).queue)
  {
    hide Merge, Insert;
    MergeInsert(c.queue, r.queue, t, e);
    StaysSorted(r.queue, t, e);
  }

  lemma AccrueAmong(cfg: Config, c: Core, r: Core, at: int, x: Charge)
    requires cfg.fees.Some? && Sorted(r.queue)
    ensures var s := Accrue(r, at, x.key, PostsAt(cfg, x.key), x.amount, x.proceeds, x.units);
            && Accrue(Among(c, r), at, x.key, PostsAt(cfg, x.key), x.amount, x.proceeds, x.units) == AmongAll(c, s)
            && (s.Ok? ==> Sorted(s.value.queue))
  {
    hide Merge, Insert, PostsAt, Sorted;
    var postsAt := PostsAt(cfg, x.key);
    PushAmong(c, r.(batches := r.batches[x.key := Batch(postsAt, 0.0, 0.0, 0.0, 0, false)]), postsAt, PostBatch(x.key));
  }

  lemma {:induction false} AccrueAllAmong(cfg: Config, c: Core, r: Core, at: int, charges: seq<Charge>)
    requires cfg.fees.Some? && Sorted(r.queue)
    ensures var s := AccrueAll(cfg, r, at, charges);
            && AccrueAll(cfg, Among(c, r), at, charges) == AmongAll(c, s)
            && (s.Ok? ==> Sorted(s.value.queue))
    decreases |charges|
  {
    hide Merge, Accrue, Sorted, PostsAt;
    if charges != [] {
      var x := charges[0];
      AccrueAmong(cfg, c, r, at, x);
      var s := Accrue(r, at, x.key, PostsAt(cfg, x.key), x.amount, x.proceeds, x.units);
      if s.Ok? { AccrueAllAmong(cfg, c, s.value, at, charges[1..]); }
    }
  }

  lemma AccrueFeesAmong(cfg: Config, c: Core, r: Core, o: Order, at: int, qty: real, price: real, suffix: nat)
    requires Sorted(r.queue)
    ensures var s := AccrueFees(cfg, r, o, at, qty, price, suffix);
            && AccrueFees(cfg, Among(c, r), o, at, qty, price, suffix) == AmongAll(c, s)
            && (s.Ok? ==> Sorted(s.value.queue))
  {
    hide Merge, Sorted, OwnFee, Charges, AccrueAll, Among;
    if cfg.fees.Some? {
      var own, charges := OwnFee(cfg, o, at, qty, price, suffix), Charges(cfg, o, at, qty, price);
      if own.Some? {
        PushAmong(c, r, own.value.at, own.value.event);
        AccrueAllAmong(cfg, c, Push(r, own.value.at, own.value.event), at, charges);
      } else {
        AccrueAllAmong(cfg, c, r, at, charges);
      }
    }
  }

  lemma ExecuteAmong(cfg: Config, c: Core, id: nat, at: int, scripted: real, price: real)
    requires c.history != [] && id < |c.orders|
    ensures var s := Execute(cfg, Idle(c), id, at, scripted, price);
            && Execute(cfg, c, id, at, scripted, price) == AmongAll(c, s)
            && (s.Ok? ==> Sorted(s.value.queue))
  {
    hide BookFill, AccrueFees, WithFill;
    var qty := scripted + c.orders[id].overfill;
    var executed, idle := Executed(cfg, c, id, at, scripted, price), Executed(cfg, Idle(c), id, at, scripted, price);
    var o := executed.orders[id];
    var booked := BookFill(c.history, o, at, qty, price);
    if booked.Ok? {
      var paid := idle.(history := booked.value);
      assert [] + [idle.activities[0]] == idle.activities;
      assert Merge(c.queue, paid.queue) == c.queue;
      assert executed.(history := booked.value) == Among(c, paid);
      AccrueFeesAmong(cfg, c, paid, o, at, qty, price, c.draws);
    }
  }

  lemma {:induction false} MergeNone(pushed: seq<Timed>)
    requires Sorted(pushed)
    ensures Merge([], pushed) == pushed
    decreases |pushed|
  {
    if pushed != [] {
      var head, rest := pushed[0], pushed[1..];
      forall t | t in rest ensures t.at >= head.at {
        var i :| 0 <= i < |rest| && rest[i] == t;
        assert t == pushed[i + 1];
      }
      assert Insert([], head.at, head.event) == [head] + [];
      MergeBehindHead(head, [], rest);
      MergeNone(rest);
    }
  }

  lemma ExecuteOnto(cfg: Config, c: Core, id: nat, at: int, scripted: real, price: real)
    requires c.history != [] && id < |c.orders|
    ensures Execute(cfg, c, id, at, scripted, price) == OntoAll(c, Execute(cfg, Bare(c), id, at, scripted, price))
  {
    hide Execute, Merge;
    ExecuteAmong(cfg, c, id, at, scripted, price);
    ExecuteAmong(cfg, Bare(c), id, at, scripted, price);
    assert Idle(Bare(c)) == Idle(c);
    var s := Execute(cfg, Idle(c), id, at, scripted, price);
    if s.Ok? {
      MergeNone(s.value.queue);
      assert [] + s.value.activities == s.value.activities;
    }
  }

  // ---- any event ----

  lemma RearmOnto(c: Core, k: Instrument, at: int, e: Event)
    ensures Rearm(c, k, at, e) == Onto(c, Rearm(Bare(c), k, at, e))
  {
    hide Later;
    var later := Later(SeriesOf(c.quotes, k), at);
    assert c.activities + [] == c.activities;
    if later != [] { MergeOne(c.queue, Timed(later[0].at, e)); }
  }

  lemma ChargedOnto(c: Core, at: int, row: Row, cash: real, coin: Option<(string, real)>)
    requires c.history != []
    ensures SimulatorModel.Charged(c, at, row, cash, coin)
            == OntoAll(c, SimulatorModel.Charged(Bare(c), at, row, cash, coin))
  {
    hide BookFee;
    assert [] + [Activity(c.draws, at, at, row)] == [Activity(c.draws, at, at, row)];
  }

  lemma FeeOnto(cfg: Config, c: Core, at: int, e: Event)
    requires c.history != [] && (e.PostBatch? || e.PostRow?)
    ensures ApplyFee(cfg, c, at, e) == OntoAll(c, ApplyFee(cfg, Bare(c), at, e))
  {
    hide SimulatorModel.Charged;
    assert c.activities + [] == c.activities;
    if e.PostRow? {
      ChargedOnto(c, at, SingleFeeRow(e.row), e.row.cashDelta, e.row.coinDelta);
    } else if cfg.fees.Some? && e.key in c.batches {
      var amount := cfg.fees.value.rates.cents(c.batches[e.key].amount);
      var posted := c.(batches := c.batches[e.key := c.batches[e.key].(posted := true)]);
      ChargedOnto(posted, at, BatchRow(e.key, -amount), -amount, None);
    }
  }

  /** An event does what it would do with an empty queue and an empty feed, behind what is there. */
  lemma ApplyOnto(cfg: Config, c: Core, at: int, e: Event)
    requires c.history != []
    ensures Apply(cfg, c, at, e) == OntoAll(c, Apply(cfg, Bare(c), at, e))
  {
    hide ApplyFee, PlanFill, Execute, Rearm;
    assert c.activities + [] == c.activities;
    if e.PostBatch? || e.PostRow? {
      FeeOnto(cfg, c, at, e);
    } else if e.Fill? && e.orderId < |c.orders| && !IsTerminal(c.orders[e.orderId].status) {
      var plan := PlanFill(c.quotes, c.orders[e.orderId], at, e);
      match plan
      case Wait => RearmOnto(c, c.orders[e.orderId].instrument, at, e);
      case Refuse(_) =>
      case Take(scripted, price) => ExecuteOnto(cfg, c, e.orderId, at, scripted, price);
    }
  }

  // ---- what is queued ----

  /** Nothing earlier than the event, nothing that other events must not pass, and at most one event that moves a
      position: the event's own symbol's. */
  ghost predicate OwnPushes(orders: seq<Order>, at: int, e: Event, pushed: seq<Timed>) {
    && (forall t :: t in pushed ==> t.at >= at && Loose(orders, t.event))
    && (forall t :: t in pushed && Touches(orders, t.event).Some? ==> Touches(orders, t.event) == Touches(orders, e))
    && (forall t, u :: t in pushed && u in pushed && Touches(orders, t.event).Some? && Touches(orders, u.event).Some?
                       ==> t == u)
  }

  lemma {:induction false} AccrueAllQueues(cfg: Config, c: Core, at: int, charges: seq<Charge>)
    requires cfg.fees.Some?
    ensures var r := AccrueAll(cfg, c, at, charges);
            r.Ok? ==> forall t :: t in r.value.queue && t !in c.queue ==> t.event.PostBatch? && t.at > at
    decreases |charges|
  {
    if charges != [] {
      hide PostsAt, Insert;
      var x := charges[0];
      var r := Accrue(c, at, x.key, PostsAt(cfg, x.key), x.amount, x.proceeds, x.units);
      InsertMembers(c.queue, PostsAt(cfg, x.key), PostBatch(x.key));
      if r.Ok? { AccrueAllQueues(cfg, r.value, at, charges[1..]); }
    }
  }

  lemma OwnFeeTouches(cfg: Config, orders: seq<Order>, o: Order, at: int, qty: real, price: real, suffix: nat)
    requires cfg.fees.Some? && DelaysOk(cfg)
    ensures var own := OwnFee(cfg, o, at, qty, price, suffix);
            own.Some? ==> && own.value.at >= at && Loose(orders, own.value.event)
                          && (Touches(orders, own.value.event).Some? ==>
                                Touches(orders, own.value.event) == Some(o.instrument.symbol))
  {
  }

  lemma FeesQueued(cfg: Config, c: Core, o: Order, at: int, qty: real, price: real, suffix: nat, orders: seq<Order>,
                   e: Event)
    requires DelaysOk(cfg) && c.queue == [] && Touches(orders, e) == Some(o.instrument.symbol)
    ensures var r := AccrueFees(cfg, c, o, at, qty, price, suffix); r.Ok? ==> OwnPushes(orders, at, e, r.value.queue)
  {
    hide OwnFee, Charges, AccrueAll;
    if cfg.fees.Some? {
      OwnFeeTouches(cfg, orders, o, at, qty, price, suffix);
      var own := OwnFee(cfg, o, at, qty, price, suffix);
      var queued := if own.Some? then Push(c, own.value.at, own.value.event) else c;
      AccrueAllQueues(cfg, queued, at, Charges(cfg, o, at, qty, price));
    }
  }

  lemma ExecuteQueues(cfg: Config, c: Core, id: nat, at: int, scripted: real, price: real, e: Event)
    requires DelaysOk(cfg) && c.history != [] && c.queue == [] && id < |c.orders| && e.Fill? && e.orderId == id
    ensures var r := Execute(cfg, c, id, at, scripted, price); r.Ok? ==> OwnPushes(c.orders, at, e, r.value.queue)
  {
    hide BookFill, AccrueFees, OwnPushes, WithFill;
    var qty := scripted + c.orders[id].overfill;
    var executed := Executed(cfg, c, id, at, scripted, price);
    FillTerms(c.orders[id], at, scripted, price);
    var booked := BookFill(c.history, executed.orders[id], at, qty, price);
    if booked.Ok? {
      FeesQueued(cfg, executed.(history := booked.value), executed.orders[id], at, qty, price, c.draws, c.orders, e);
    }
  }

  lemma RearmQueues(c: Core, k: Instrument, at: int, e: Event)
    requires c.queue == [] && Loose(c.orders, e)
    ensures OwnPushes(c.orders, at, e, Rearm(c, k, at, e).queue)
  {
    hide Loose;
    var later := Later(SeriesOf(c.quotes, k), at);
    if later != [] { assert later[0] in later; }
  }

  lemma ApplyQueues(cfg: Config, c: Core, at: int, e: Event)
    requires DelaysOk(cfg) && c.history != [] && c.queue == []
    ensures var r := Apply(cfg, c, at, e); r.Ok? ==> OwnPushes(c.orders, at, e, r.value.queue)
  {
    hide PlanFill, Execute, Rearm, OwnPushes;
    NoPushes(c.orders, at, e);
    if e.PostBatch? || e.PostRow? {
      ApplyFeeShrinks(cfg, c, at, e);
    } else if e.Fill? && e.orderId < |c.orders| && !IsTerminal(c.orders[e.orderId].status) {
      var o := c.orders[e.orderId];
      var plan := PlanFill(c.quotes, o, at, e);
      match plan
      case Wait =>
        OnlyLimitsWait(c.quotes, o, at, e);
        RearmQueues(c, o.instrument, at, e);
      case Refuse(_) =>
      case Take(scripted, price) => ExecuteQueues(cfg, c, e.orderId, at, scripted, price, e);
    }
  }

  lemma NoPushes(orders: seq<Order>, at: int, e: Event)
    ensures OwnPushes(orders, at, e, [])
  {
  }

  // ---- draw numbers change nothing else ----

  lemma OneActivity(a: Activity)
    ensures PlainActivities([a]) == multiset{PlainActivity(a)}
  {
    MoreActivities([], a);
    assert [] + [a] == [a];
  }

  /** Rows that differ in their draw number are charged alike. */
  lemma RowsApart(c: Core, at: int, row: FeeRow, other: FeeRow)
    requires c.history != [] && c.activities == [] && row.(executionId := None) == other.(executionId := None)
    ensures var r := SimulatorModel.Charged(c, at, SingleFeeRow(row), row.cashDelta, row.coinDelta);
            var s := SimulatorModel.Charged(c, at, SingleFeeRow(other), other.cashDelta, other.coinDelta);
            && (r.Err? <==> s.Err?)
            && (r.Ok? ==> && s.value == r.value.(activities := s.value.activities)
                          && PlainActivities(s.value.activities) == PlainActivities(r.value.activities))
  {
    hide BookFee, PlainActivities;
    var a, b := Activity(c.draws, at, at, SingleFeeRow(row)), Activity(c.draws, at, at, SingleFeeRow(other));
    OneActivity(a);
    OneActivity(b);
    assert PlainActivity(a) == PlainActivity(b);
    assert [] + [a] == [a] && [] + [b] == [b];
  }

  /** Events that differ in their draw number do the same, apart from the number. */
  lemma DrawsApart(cfg: Config, c: Core, at: int, e: Event, f: Event)
    requires c.history != [] && c.activities == [] && Plain(e) == Plain(f)
    ensures var r, s := Apply(cfg, c, at, e), Apply(cfg, c, at, f);
            && (r.Err? <==> s.Err?)
            && (r.Ok? ==> && s.value == r.value.(activities := s.value.activities)
                          && PlainActivities(s.value.activities) == PlainActivities(r.value.activities))
  {
    if e.PostRow? {
      hide SimulatorModel.Charged, PlainActivities;
      RowsApart(c, at, e.row, f.row);
    } else {
      hide Apply, PlainActivities;
      assert e == f;
    }
  }

  lemma LastApart<T>(a: seq<T>, b: seq<T>)
    requires b != []
    ensures a + b == (a + b[..|b| - 1]) + [b[|b| - 1]]
  {
  }

  lemma {:induction false} ActivityParts(a: seq<Activity>, b: seq<Activity>)
    ensures PlainActivities(a + b) == PlainActivities(a) + PlainActivities(b)
    decreases |b|
  {
    if b == [] {
      assert a + b == a;
    } else {
      hide PlainActivity, PlainActivities;
      var n := |b| - 1;
      ActivityParts(a, b[..n]);
      LastApart(a, b);
      LastApart([], b);
      MoreActivities(b[..n], b[n]);
      MoreActivities(a + b[..n], b[n]);
      assert [] + b == b && [] + b[..n] == b[..n];
    }
  }
}
