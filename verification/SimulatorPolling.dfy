/** Polling never changes what happens: a script with reads inserted anywhere ends, at any later read, in the same
    timeline (or the same script error) with the same answers as the script without them. */
module SimulatorPolling {
  import opened Common
  import opened TradingSession
  import opened SimulatorModel
  import opened SimulatorCommands
  import opened SimulatorOrders

  // ---- reading in two stages ----

  /** Applying what is due at t1 and then at t2 is applying what is due at t2, errors included. */
  lemma {:induction false} DrainTwice(cfg: Config, c: Core, t1: int, t2: int)
    requires c.history != [] && t1 <= t2
    ensures Drain(cfg, c, t1).Err? ==> Drain(cfg, c, t2) == Drain(cfg, c, t1)
    ensures Drain(cfg, c, t1).Ok? ==> Drain(cfg, Drain(cfg, c, t1).value, t2) == Drain(cfg, c, t2)
    decreases Weight(c)
  {
    if c.queue != [] && c.queue[0].at <= t1 {
      ApplyShrinks(cfg, Popped(c), c.queue[0].at, c.queue[0].event);
      var next := Apply(cfg, Popped(c), c.queue[0].at, c.queue[0].event);
      if next.Ok? { DrainTwice(cfg, next.value, t1, t2); }
    }
  }

  // ---- a new quote and the queue ----

  /** Insertions at different instants commute. */
  lemma {:induction false} InsertCommutes(queue: seq<Timed>, t1: int, e1: Event, t2: int, e2: Event)
    requires t1 != t2
    ensures Insert(Insert(queue, t1, e1), t2, e2) == Insert(Insert(queue, t2, e2), t1, e1)
  {
    if queue == [] {
    } else if t1 < queue[0].at || t2 < queue[0].at {
      assert ([Timed(t1, e1)] + queue)[1..] == queue && ([Timed(t2, e2)] + queue)[1..] == queue;
      assert t1 >= queue[0].at ==> ([queue[0]] + Insert(queue[1..], t1, e1))[1..] == Insert(queue[1..], t1, e1);
      assert t2 >= queue[0].at ==> ([queue[0]] + Insert(queue[1..], t2, e2))[1..] == Insert(queue[1..], t2, e2);
    } else {
      InsertCommutes(queue[1..], t1, e1, t2, e2);
      assert ([queue[0]] + Insert(queue[1..], t1, e1))[1..] == Insert(queue[1..], t1, e1);
      assert ([queue[0]] + Insert(queue[1..], t2, e2))[1..] == Insert(queue[1..], t2, e2);
    }
  }

  predicate SinceBefore(waiting: seq<Waiting>, at: int) {
    forall w :: w in waiting ==> w.since < at
  }

  lemma {:induction false} RearmedCommutes(queue: seq<Timed>, at: int, waiting: seq<Waiting>, t: int, e: Event)
    requires SinceBefore(waiting, at) && t != at
    ensures Rearmed(Insert(queue, t, e), at, waiting) == Insert(Rearmed(queue, at, waiting), t, e)
    decreases |waiting|
  {
    if waiting != [] {
      assert waiting[0] in waiting;
      InsertCommutes(queue, at, waiting[0].event, t, e);
      RearmedCommutes(Insert(queue, at, waiting[0].event), at, waiting[1..], t, e);
    }
  }

  lemma {:induction false} RearmedSnoc(queue: seq<Timed>, at: int, waiting: seq<Waiting>, w: Waiting)
    ensures Rearmed(queue, at, waiting + [w]) == Insert(Rearmed(queue, at, waiting), MaxInt(at, w.since), w.event)
    decreases |waiting|
  {
    if waiting == [] {
      assert waiting + [w] == [w];
      assert Rearmed(queue, at, [w]) == Rearmed(Insert(queue, MaxInt(at, w.since), w.event), at, [w][1..]);
    } else {
      assert (waiting + [w])[1..] == waiting[1..] + [w];
      RearmedSnoc(Insert(queue, MaxInt(at, waiting[0].since), waiting[0].event), at, waiting[1..], w);
    }
  }

  /** Re-arming at a later instant leaves the head of the queue, and what is not yet due, alone. */
  lemma {:induction false} RearmedHead(queue: seq<Timed>, at: int, waiting: seq<Waiting>, due: int)
    requires SinceBefore(waiting, at) && due < at
    ensures queue == [] || queue[0].at > due ==>
              Rearmed(queue, at, waiting) == [] || Rearmed(queue, at, waiting)[0].at > due
    ensures queue != [] && queue[0].at <= due ==>
              && Rearmed(queue, at, waiting) != [] && Rearmed(queue, at, waiting)[0] == queue[0]
              && Rearmed(queue, at, waiting)[1..] == Rearmed(queue[1..], at, waiting)
    decreases |waiting|
  {
    if waiting != [] {
      assert waiting[0] in waiting;
      RearmedHead(Insert(queue, at, waiting[0].event), at, waiting[1..], due);
      if queue != [] && queue[0].at <= due {
        assert ([queue[0]] + Insert(queue[1..], at, waiting[0].event))[1..] == Insert(queue[1..], at, waiting[0].event);
      }
    }
  }

  // ---- a new quote and one event ----

  /** The instants at which a fill at `at` could post a fee. */
  ghost predicate FeeLandsOn(cfg: Config, at: int, instant: int) {
    cfg.fees.Some? &&
    var posting, date := cfg.fees.value.posting, cfg.tradeDate(at);
    || instant == at + posting.occDelay || instant == at + posting.cfeeAssetDelay
       || instant == at + posting.cfeeUsdDelay
    || instant == posting.equityBatch(date) || instant == posting.optionBatch(date)
  }

  /** The event is a limit fill on the instrument: the only kind that can wait for its next quote. */
  predicate MayWait(orders: seq<Order>, k: Instrument, event: Event) {
    event.Fill? && event.orderId < |orders| && orders[event.orderId].instrument == k
      && orders[event.orderId].limit.Some?
  }

  ghost predicate QuotedAt(quotes: map<Instrument, seq<Quote>>, k: Instrument, instant: int) {
    exists q :: q in SeriesOf(quotes, k) && q.at == instant
  }

  /** Nothing waits, or can come to wait, for the instrument's next quote. */
  ghost predicate NoneWaits(c: Core, k: Instrument, now: int) {
    ParkedOn(c.parked, k) == [] && forall t :: t in c.queue && t.at <= now ==> !MayWait(c.orders, k, t.event)
  }

  /** Nothing can come to wait for another instrument's quote at the very instant. */
  ghost predicate NoRivalWaits(c: Core, k: Instrument, instant: int, now: int) {
    forall t, other :: t in c.queue && t.at <= now && other != k && MayWait(c.orders, other, t.event) ==>
      !QuotedAt(c.quotes, other, instant)
  }

  /** No fill that can happen up to `now` posts a fee exactly at the instant. */
  ghost predicate FeesMiss(cfg: Config, c: Core, now: int, instant: int) {
    && (forall t :: t in c.queue && t.event.Fill? && t.at <= now ==> !FeeLandsOn(cfg, t.at, instant))
    && (forall k, q :: k in c.quotes && q in c.quotes[k] && q.at <= now ==> !FeeLandsOn(cfg, q.at, instant))
  }

  /** Either nothing waits for the new quote, or nothing else can be queued for exactly its instant by what is already
      due at `now`. A caller can check this before scripting the quote. */
  ghost predicate Untied(cfg: Config, c: Core, k: Instrument, q: Quote, now: int) {
    NoneWaits(c, k, now) || (NoRivalWaits(c, k, q.at, now) && FeesMiss(cfg, c, now, q.at))
  }

  /** The same, for one event about to be applied at `at`. */
  ghost predicate Tieless(cfg: Config, c: Core, k: Instrument, instant: int, at: int, event: Event) {
    || (ParkedOn(c.parked, k) == [] && !MayWait(c.orders, k, event))
    || ((event.Fill? ==> !FeeLandsOn(cfg, at, instant))
        && forall other :: other != k && MayWait(c.orders, other, event) ==> !QuotedAt(c.quotes, other, instant))
  }

  ghost predicate ParkedBefore(parked: map<Instrument, seq<Waiting>>, at: int) {
    forall k :: k in parked ==> SinceBefore(parked[k], at)
  }

  lemma {:induction false} BisectAppend(instants: seq<int>, last: int, at: int)
    requires last > at
    ensures BisectRight(instants + [last], at) == BisectRight(instants, at)
  {
    if instants != [] && instants[0] <= at {
      assert (instants + [last])[1..] == instants[1..] + [last];
      BisectAppend(instants[1..], last, at);
    }
  }

  /** A quote is read as of an instant, never ahead of it. */
  lemma QuoteAtAppend(series: seq<Quote>, q: Quote, at: int)
    requires q.at > at
    ensures QuoteAt(series + [q], at) == QuoteAt(series, at)
  {
    assert QuoteTimes(series + [q]) == QuoteTimes(series) + [q.at];
    BisectAppend(QuoteTimes(series), q.at, at);
  }

  lemma {:induction false} LaterAppend(series: seq<Quote>, q: Quote, at: int)
    requires q.at > at
    ensures Later(series + [q], at) == Later(series, at) + [q]
  {
    if series == [] {
      assert [] + [q] == [q];
      assert [q][1..] == [];
    } else {
      assert (series + [q])[1..] == series[1..] + [q];
      LaterAppend(series[1..], q, at);
    }
  }

  function Requoted(r: Outcome, k: Instrument, q: Quote): Outcome {
    match r case Ok(c) => Ok(WithQuote(c, k, q)) case Err(e) => Err(e)
  }

  lemma PushCommutes(c: Core, k: Instrument, q: Quote, t: int, e: Event)
    requires ParkedBefore(c.parked, q.at) && (t != q.at || ParkedOn(c.parked, k) == [])
    ensures Push(WithQuote(c, k, q), t, e) == WithQuote(Push(c, t, e), k, q)
  {
    if t != q.at { RearmedCommutes(c.queue, q.at, ParkedOn(c.parked, k), t, e); }
  }

  lemma {:induction false} AccrueAllCommutes(cfg: Config, c: Core, k: Instrument, q: Quote, at: int,
                                             charges: seq<Charge>)
    requires cfg.fees.Some? && ParkedBefore(c.parked, q.at)
             && (!FeeLandsOn(cfg, at, q.at) || ParkedOn(c.parked, k) == [])
    requires forall x :: x in charges ==> x.key.tradeDate == cfg.tradeDate(at)
    ensures AccrueAll(cfg, WithQuote(c, k, q), at, charges) == Requoted(AccrueAll(cfg, c, at, charges), k, q)
    decreases |charges|
  {
    if charges != [] {
      var x := charges[0];
      assert x in charges;
      var postsAt := PostsAt(cfg, x.key);
      var started := c.(batches := c.batches[x.key := Batch(postsAt, 0.0, 0.0, 0.0, 0, false)]);
      PushCommutes(started, k, q, postsAt, PostBatch(x.key));
      var r := Accrue(c, at, x.key, postsAt, x.amount, x.proceeds, x.units);
      assert Accrue(WithQuote(c, k, q), at, x.key, postsAt, x.amount, x.proceeds, x.units) == Requoted(r, k, q);
      if r.Ok? { AccrueAllCommutes(cfg, r.value, k, q, at, charges[1..]); }
    }
  }

  lemma AccrueFeesCommutes(cfg: Config, c: Core, k: Instrument, q: Quote, o: Order, at: int, qty: real, price: real,
                           suffix: nat)
    requires ParkedBefore(c.parked, q.at) && (!FeeLandsOn(cfg, at, q.at) || ParkedOn(c.parked, k) == [])
    ensures AccrueFees(cfg, WithQuote(c, k, q), o, at, qty, price, suffix)
         == Requoted(AccrueFees(cfg, c, o, at, qty, price, suffix), k, q)
  {
    if cfg.fees.Some? {
      var own := OwnFee(cfg, o, at, qty, price, suffix);
      var queued := if own.Some? then Push(c, own.value.at, own.value.event) else c;
      if own.Some? { PushCommutes(c, k, q, own.value.at, own.value.event); }
      AccrueAllCommutes(cfg, queued, k, q, at, Charges(cfg, o, at, qty, price));
    }
  }

  /** A new quote touches only quotes, queue and parked fills. */
  lemma OthersCommute(c: Core, k: Instrument, q: Quote, d: Core)
    requires d.quotes == c.quotes && d.queue == c.queue && d.parked == c.parked
    ensures WithQuote(d, k, q)
            == WithQuote(c, k, q).(history := d.history, orders := d.orders, activities := d.activities,
                                                      batches := d.batches, draws := d.draws)
  {
  }

  lemma ExecuteCommutes(cfg: Config, c: Core, k: Instrument, q: Quote, id: nat, at: int, scripted: real, price: real)
    requires c.history != [] && id < |c.orders| && ParkedBefore(c.parked, q.at)
    requires !FeeLandsOn(cfg, at, q.at) || ParkedOn(c.parked, k) == []
    ensures Execute(cfg, WithQuote(c, k, q), id, at, scripted, price)
            == Requoted(Execute(cfg, c, id, at, scripted, price), k, q)
  {
    hide AccrueFees, BookFill, WithFill, Rearmed;
    var executed := Executed(cfg, c, id, at, scripted, price);
    OthersCommute(c, k, q, executed);
    assert Executed(cfg, WithQuote(c, k, q), id, at, scripted, price) == WithQuote(executed, k, q);
    var qty := scripted + c.orders[id].overfill;
    var booked := BookFill(c.history, executed.orders[id], at, qty, price);
    if booked.Ok? {
      OthersCommute(executed, k, q, executed.(history := booked.value));
      AccrueFeesCommutes(cfg, executed.(history := booked.value), k, q, executed.orders[id], at, qty, price, c.draws);
    }
  }

  lemma RearmCommutes(c: Core, k: Instrument, q: Quote, own: Instrument, at: int, event: Event)
    requires ParkedBefore(c.parked, q.at) && at < q.at
    requires own == k || ParkedOn(c.parked, k) == [] || !QuotedAt(c.quotes, own, q.at)
    requires forall x :: x in SeriesOf(c.quotes, k) ==> x.at < q.at
    ensures Rearm(WithQuote(c, k, q), own, at, event) == WithQuote(Rearm(c, own, at, event), k, q)
  {
    hide Insert, Rearmed;
    var later := Later(SeriesOf(c.quotes, own), at);
    LaterAppend(SeriesOf(c.quotes, k), q, at);
    if later != [] {
      assert later[0] in later;
      PushCommutes(c, k, q, later[0].at, event);
    } else if own == k {
      RearmedSnoc(c.queue, q.at, ParkedOn(c.parked, k), Waiting(at, event));
      assert Rearm(c, own, at, event).parked - {k} == c.parked - {k};
    } else {
      assert c.parked[own := ParkedOn(c.parked, own) + [Waiting(at, event)]] - {k}
          == (c.parked - {k})[own := ParkedOn(c.parked, own) + [Waiting(at, event)]];
    }
  }

  /** A fill is decided on the quotes at or before its instant. */
  lemma PlanIgnoresLaterQuote(quotes: map<Instrument, seq<Quote>>, k: Instrument, q: Quote, o: Order, at: int,
                              event: Event)
    requires event.Fill? && q.at > at
    ensures PlanFill(quotes[k := SeriesOf(quotes, k) + [q]], o, at, event) == PlanFill(quotes, o, at, event)
  {
    QuoteAtAppend(SeriesOf(quotes, k), q, at);
  }

  lemma OnlyLimitsWait(quotes: map<Instrument, seq<Quote>>, o: Order, at: int, event: Event)
    requires event.Fill?
    ensures PlanFill(quotes, o, at, event).Wait? ==> o.limit.Some?
  {
  }

  lemma ApplyFillCommutes(cfg: Config, c: Core, k: Instrument, q: Quote, at: int, event: Event)
    requires c.history != [] && ParkedBefore(c.parked, q.at) && Tieless(cfg, c, k, q.at, at, event)
    requires at < q.at && event.Fill? && event.orderId < |c.orders|
    requires forall x :: x in SeriesOf(c.quotes, k) ==> x.at < q.at
    ensures ApplyFill(cfg, WithQuote(c, k, q), at, event) == Requoted(ApplyFill(cfg, c, at, event), k, q)
  {
    hide Execute, Rearm, Rearmed, PlanFill, FeeLandsOn, QuotedAt;
    var o := c.orders[event.orderId];
    var plan := PlanFill(c.quotes, o, at, event);
    PlanIgnoresLaterQuote(c.quotes, k, q, o, at, event);
    if plan.Wait? {
      OnlyLimitsWait(c.quotes, o, at, event);
      assert MayWait(c.orders, o.instrument, event);
      RearmCommutes(c, k, q, o.instrument, at, event);
    } else if plan.Take? {
      ExecuteCommutes(cfg, c, k, q, event.orderId, at, plan.scripted, plan.price);
    }
  }

  lemma ApplyFeeCommutes(cfg: Config, c: Core, k: Instrument, q: Quote, at: int, event: Event)
    requires c.history != [] && (event.PostBatch? || event.PostRow?)
    ensures ApplyFee(cfg, WithQuote(c, k, q), at, event) == Requoted(ApplyFee(cfg, c, at, event), k, q)
  {
    var r := ApplyFee(cfg, c, at, event);
    if r.Ok? { OthersCommute(c, k, q, r.value); }
  }

  /** An event before a new quote's instant does the same whether the quote is scripted before it or after it. */
  lemma ApplyCommutes(cfg: Config, c: Core, k: Instrument, q: Quote, at: int, event: Event)
    requires c.history != [] && ParkedBefore(c.parked, q.at) && Tieless(cfg, c, k, q.at, at, event) && at < q.at
    requires forall x :: x in SeriesOf(c.quotes, k) ==> x.at < q.at
    ensures Apply(cfg, WithQuote(c, k, q), at, event) == Requoted(Apply(cfg, c, at, event), k, q)
  {
    if event.PostBatch? || event.PostRow? {
      ApplyFeeCommutes(cfg, c, k, q, at, event);
    } else if event.orderId < |c.orders| && !IsTerminal(c.orders[event.orderId].status) {
      if event.Fill? {
        ApplyFillCommutes(cfg, c, k, q, at, event);
      } else {
        OthersCommute(c, k, q, Apply(cfg, c, at, event).value);
      }
    }
  }

  // ---- what draining keeps ----

  /** Applying an event adds no quotes, parks only at its own instant and re-arms fills only at scripted quotes. */
  lemma ApplyFrame(cfg: Config, c: Core, at: int, event: Event)
    requires c.history != []
    ensures var r := Apply(cfg, c, at, event);
            r.Ok? ==>
              && r.value.quotes == c.quotes
              && (forall k :: k in r.value.parked ==>
                    forall w :: w in r.value.parked[k] ==> w.since == at || (k in c.parked && w in c.parked[k]))
              && (forall t :: t in r.value.queue && t.event.Fill? ==>
                    t in c.queue || (t.event == event && exists k, q ::
                      k in c.quotes && q in c.quotes[k] && q.at == t.at))
  {
    if event.PostBatch? || event.PostRow? {
      ApplyFeeShrinks(cfg, c, at, event);
    } else if event.Fill? && event.orderId < |c.orders| && !IsTerminal(c.orders[event.orderId].status) {
      var o := c.orders[event.orderId];
      var plan := PlanFill(c.quotes, o, at, event);
      if plan.Wait? {
        var later := Later(SeriesOf(c.quotes, o.instrument), at);
        if later != [] {
          assert later[0] in later;
          InsertMembers(c.queue, later[0].at, event);
        }
      } else if plan.Take? {
        ExecuteShrinks(cfg, c, event.orderId, at, plan.scripted, plan.price);
        ExecuteQueuesFees(cfg, c, event.orderId, at, plan.scripted, plan.price);
      }
    }
  }

  lemma {:induction false} AccrueAllQueuesFees(cfg: Config, c: Core, at: int, charges: seq<Charge>)
    requires cfg.fees.Some?
    ensures var r := AccrueAll(cfg, c, at, charges);
            r.Ok? ==> forall t :: t in r.value.queue && t.event.Fill? ==> t in c.queue
    decreases |charges|
  {
    if charges != [] {
      var x := charges[0];
      var r := Accrue(c, at, x.key, PostsAt(cfg, x.key), x.amount, x.proceeds, x.units);
      InsertMembers(c.queue, PostsAt(cfg, x.key), PostBatch(x.key));
      if r.Ok? { AccrueAllQueuesFees(cfg, r.value, at, charges[1..]); }
    }
  }

  lemma ExecuteQueuesFees(cfg: Config, c: Core, id: nat, at: int, scripted: real, price: real)
    requires c.history != [] && id < |c.orders|
    ensures var r := Execute(cfg, c, id, at, scripted, price);
            r.Ok? ==> forall t :: t in r.value.queue && t.event.Fill? ==> t in c.queue
  {
    hide BookFill, WithFill, AccrueAll, Charges, Insert;
    var executed := Executed(cfg, c, id, at, scripted, price);
    var o := executed.orders[id];
    var qty := scripted + c.orders[id].overfill;
    var booked := BookFill(c.history, o, at, qty, price);
    if booked.Ok? && cfg.fees.Some? {
      var paid := executed.(history := booked.value);
      var own := OwnFee(cfg, o, at, qty, price, c.draws);
      var queued := if own.Some? then Push(paid, own.value.at, own.value.event) else paid;
      if own.Some? { InsertMembers(paid.queue, own.value.at, own.value.event); }
      AccrueAllQueuesFees(cfg, queued, at, Charges(cfg, o, at, qty, price));
    }
  }

  lemma {:induction false} DrainFrame(cfg: Config, c: Core, now: int, bound: int)
    requires c.history != [] && ParkedBefore(c.parked, bound) && now < bound
    ensures var r := Drain(cfg, c, now);
            r.Ok? ==> r.value.quotes == c.quotes && ParkedBefore(r.value.parked, bound)
    decreases Weight(c)
  {
    if c.queue != [] && c.queue[0].at <= now {
      ApplyShrinks(cfg, Popped(c), c.queue[0].at, c.queue[0].event);
      ApplyFrame(cfg, Popped(c), c.queue[0].at, c.queue[0].event);
      var next := Apply(cfg, Popped(c), c.queue[0].at, c.queue[0].event);
      if next.Ok? { DrainFrame(cfg, next.value, now, bound); }
    }
  }

  /** Reading and then scripting a later, untied quote is scripting it and then reading. */
  lemma {:induction false} DrainCommutes(cfg: Config, c: Core, k: Instrument, q: Quote, now: int)
    requires c.history != [] && ParkedBefore(c.parked, q.at) && now < q.at && Untied(cfg, c, k, q, now)
    requires forall x :: x in SeriesOf(c.quotes, k) ==> x.at < q.at
    ensures Drain(cfg, WithQuote(c, k, q), now) == Requoted(Drain(cfg, c, now), k, q)
    decreases Weight(c)
  {
    hide Apply, Tieless, Untied, FeesMiss, Rearmed, QuotedAt;
    RearmedHead(c.queue, q.at, ParkedOn(c.parked, k), now);
    if c.queue != [] && c.queue[0].at <= now {
      var head := c.queue[0];
      var next := Apply(cfg, Popped(c), head.at, head.event);
      assert Popped(WithQuote(c, k, q)) == WithQuote(Popped(c), k, q);
      HeadIsTieless(cfg, c, k, q, now);
      ApplyCommutes(cfg, Popped(c), k, q, head.at, head.event);
      ApplyShrinks(cfg, Popped(c), head.at, head.event);
      ApplyFrame(cfg, Popped(c), head.at, head.event);
      if next.Ok? {
        StillUntied(cfg, c, k, q, now);
        DrainCommutes(cfg, next.value, k, q, now);
      }
    }
  }

  lemma HeadIsTieless(cfg: Config, c: Core, k: Instrument, q: Quote, now: int)
    requires c.queue != [] && c.queue[0].at <= now && Untied(cfg, c, k, q, now)
    ensures Tieless(cfg, Popped(c), k, q.at, c.queue[0].at, c.queue[0].event)
  {
    hide FeeLandsOn, QuotedAt;
    assert c.queue[0] in c.queue;
  }

  /** An event changes neither what its orders trade nor at which limit, and parks only a limit fill on its own
      instrument. */
  lemma ApplyTerms(cfg: Config, c: Core, at: int, event: Event)
    requires c.history != []
    ensures var r := Apply(cfg, c, at, event);
            r.Ok? ==>
              && |r.value.orders| == |c.orders|
              && (forall i :: 0 <= i < |c.orders| ==>
                    r.value.orders[i].instrument == c.orders[i].instrument
                      && r.value.orders[i].limit == c.orders[i].limit)
              && (forall k :: ParkedOn(r.value.parked, k) == ParkedOn(c.parked, k) || MayWait(c.orders, k, event))
  {
    hide ApplyFee, PlanFill, Execute, Insert, WithFill;
    if event.PostBatch? || event.PostRow? {
      ApplyFeeShrinks(cfg, c, at, event);
    } else if event.Fill? && event.orderId < |c.orders| && !IsTerminal(c.orders[event.orderId].status) {
      var o := c.orders[event.orderId];
      var plan := PlanFill(c.quotes, o, at, event);
      OnlyLimitsWait(c.quotes, o, at, event);
      if plan.Take? {
        FillTerms(o, at, plan.scripted, plan.price);
        ExecuteTerms(cfg, c, event.orderId, at, plan.scripted, plan.price);
      }
    }
  }

  lemma FillTerms(o: Order, at: int, scripted: real, price: real)
    ensures var p := WithFill(o, at, scripted, price); p.instrument == o.instrument && p.limit == o.limit
  {
  }

  lemma ExecuteTerms(cfg: Config, c: Core, id: nat, at: int, scripted: real, price: real)
    requires c.history != [] && id < |c.orders|
    ensures var r := Execute(cfg, c, id, at, scripted, price);
            r.Ok? ==>
              && r.value.parked == c.parked
              && r.value.orders == c.orders[id := WithFill(c.orders[id], at, scripted, price)]
  {
    hide BookFill, AccrueFees;
    var qty := scripted + c.orders[id].overfill;
    var executed := Executed(cfg, c, id, at, scripted, price);
    var booked := BookFill(c.history, executed.orders[id], at, qty, price);
    if booked.Ok? {
      AccrueFeesWeight(cfg, executed.(history := booked.value), executed.orders[id], at, qty, price, c.draws);
    }
  }

  /** Applying the head leaves the new quote as untied as it was. */
  lemma StillUntied(cfg: Config, c: Core, k: Instrument, q: Quote, now: int)
    requires c.history != [] && c.queue != [] && c.queue[0].at <= now && Untied(cfg, c, k, q, now)
    ensures var r := Apply(cfg, Popped(c), c.queue[0].at, c.queue[0].event); r.Ok? ==> Untied(cfg, r.value, k, q, now)
  {
    hide Apply, FeeLandsOn, QuotedAt;
    var head := c.queue[0];
    assert head in c.queue;
    ApplyFrame(cfg, Popped(c), head.at, head.event);
    ApplyTerms(cfg, Popped(c), head.at, head.event);
    var r := Apply(cfg, Popped(c), head.at, head.event);
    if r.Ok? {
      forall t | t in r.value.queue && t.event.Fill? && t.at <= now
        ensures exists u :: u in c.queue && u.at <= now && u.event == t.event
      {
        if t in Popped(c).queue { assert t in c.queue; }
      }
      if NoneWaits(c, k, now) {
        assert NoneWaits(r.value, k, now);
      } else {
        assert NoRivalWaits(r.value, k, q.at, now);
        assert FeesMiss(cfg, r.value, now, q.at);
      }
    }
  }

  // ---- whole scripts ----

  /** Quote series rise, and every parked fill was parked by something already observed. */
  ghost predicate Scripted(w: World) {
    && QuotesRising(w.core.quotes)
    && (forall k :: k in w.core.parked ==>
          forall x :: x in w.core.parked[k] ==> w.materializedAt.Some? && x.since <= w.materializedAt.value)
  }

  predicate ObservedBy(w: World, now: int) {
    w.materializedAt.Some? ==> w.materializedAt.value <= now
  }

  /** `a` has been read up to `lag`; `b` has not been read since the two last agreed. */
  ghost predicate Behind(cfg: Config, a: World, b: World, lag: Option<int>)
    requires b.core.history != []
  {
    && a.clients == b.clients && a.scripts == b.scripts && a.overfillPending == b.overfillPending
    && (lag.None? ==> a.core == b.core && a.materializedAt == b.materializedAt)
    && (lag.Some? ==> Drain(cfg, b.core, lag.value) == Ok(a.core) && ObservedBy(a, lag.value)
                      && ObservedBy(b, lag.value))
  }

  /** Along the run without the inserted reads: every quote scripted after such a read is later than that read and
      untied, as the caller can check before scripting it. */
  ghost predicate QuotesSafe(cfg: Config, b: World, lastRead: Option<int>, script: seq<Call>)
    requires b.core.history != []
    decreases |script|
  {
    script == [] ||
    var now, cmd := script[0].now, script[0].cmd;
    if cmd.Read? then QuotesSafe(cfg, b, Some(now), script[1..])
    else
      && (cmd.SetQuote? && lastRead.Some? ==>
            cmd.quote.at > lastRead.value && Untied(cfg, b.core, cmd.instrument, cmd.quote, lastRead.value))
      && (StepKeepsHistory(cfg, b, now, cmd);
          var s := Step(cfg, b, now, cmd);
          s.Ok? ==> QuotesSafe(cfg, s.value.world, if Materializes(cmd) then None else lastRead, script[1..]))
  }

  /** What a final read at `end` finds: the whole timeline and every answer, or the script's error. */
  function Observe(cfg: Config, w: World, script: seq<Call>, end: int): Result<(Core, seq<Answer>), ScriptError>
    requires w.core.history != []
  {
    match Run(cfg, w, script)
    case Err(e) => Err(e)
    case Ok(ran) =>
      RunKeepsHistory(cfg, w, script);
      match Drain(cfg, ran.world.core, end)
      case Err(e) => Err(e)
      case Ok(core) => Ok((core, ran.answers))
  }

  lemma {:induction false} RunKeepsHistory(cfg: Config, w: World, script: seq<Call>)
    requires w.core.history != []
    ensures Run(cfg, w, script).Ok? ==> Run(cfg, w, script).value.world.core.history != []
    decreases |script|
  {
    if script != [] {
      StepKeepsHistory(cfg, w, script[0].now, script[0].cmd);
      var s := Step(cfg, w, script[0].now, script[0].cmd);
      if s.Ok? { RunKeepsHistory(cfg, s.value.world, script[1..]); }
    }
  }

  /** Nothing in the script is later than the final read. */
  predicate EndsBy(script: seq<Call>, end: int) {
    forall i :: 0 <= i < |script| ==> script[i].now <= end
  }

  lemma {:induction false} MaterializeScripted(cfg: Config, w: World, now: int)
    requires w.core.history != [] && Scripted(w) && ObservedBy(w, now)
    ensures var r := Materialize(cfg, w, now);
            r.Ok? ==> && Scripted(r.value) && r.value.materializedAt == Some(now)
                      && r.value == w.(core := Drain(cfg, w.core, now).value, materializedAt := Some(now),
                         checks := r.value.checks)
  {
    if Drain(cfg, w.core, now).Ok? {
      DrainFrame(cfg, w.core, now, now + 1);
    }
  }

  /** Two worlds that differ only in what the invariant check remembers answer alike. */
  lemma ActAlike(cfg: Config, a: World, b: World, now: int, cmd: Command)
    requires WorldOk(cfg, a) && WorldOk(cfg, b) && Materializes(cmd) && a == b.(checks := a.checks)
    ensures var ra, rb := Act(cfg, a, now, cmd), Act(cfg, b, now, cmd);
            && ra.Ok? && rb.Ok? && ra.value.answer == rb.value.answer
            && ra.value.world == rb.value.world.(checks := ra.value.world.checks)
  {
    match cmd
    case Read =>
    case SeedPosition(_, _, _, _, _) =>
    case Place(r) => PlaceAlike(cfg, a, b, now, r);
    case Cancel(id) => CancelOk(cfg, a, now, id); CancelOk(cfg, b, now, id);
  }

  lemma PlaceAlike(cfg: Config, a: World, b: World, now: int, r: Request)
    requires a.core.history != [] && a == b.(checks := a.checks)
    ensures var ra, rb := PlaceOrder(cfg, a, now, r), PlaceOrder(cfg, b, now, r);
            ra.answer == rb.answer && ra.world == rb.world.(checks := ra.world.checks)
  {
    hide ScheduleOrder;
    var openNow := r.instrument.assetClass == Crypto || IsOpen(cfg.session, now);
    assert NewOrder(cfg, a, now, r, openNow) == NewOrder(cfg, b, now, r, openNow);
    var start := if openNow then Some(now) else NextOpen(cfg.session, now);
    if start.Some? {
      assert Booked(cfg, a, now, r, openNow, start.value) == Booked(cfg, b, now, r, openNow, start.value);
    }
  }

  lemma PlaceFrame(cfg: Config, w: World, now: int, r: Request)
    requires w.core.history != []
    ensures var s := PlaceOrder(cfg, w, now, r).world;
            s.core.quotes == w.core.quotes && s.core.parked == w.core.parked && s.materializedAt == w.materializedAt
  {
    hide Booked, RefusalCode, TotalQty;
    var openNow := r.instrument.assetClass == Crypto || IsOpen(cfg.session, now);
    var start := if openNow then Some(now) else NextOpen(cfg.session, now);
    if start.Some? { BookedFrame(cfg, w, now, r, openNow, start.value); }
  }

  lemma ActScripted(cfg: Config, w: World, now: int, cmd: Command)
    requires w.core.history != [] && Scripted(w) && Materializes(cmd)
    ensures var r := Act(cfg, w, now, cmd);
            r.Ok? ==> Scripted(r.value.world) && r.value.world.materializedAt == w.materializedAt
  {
    hide PlaceOrder, AllSound;
    if cmd.Place? { PlaceFrame(cfg, w, now, cmd.request); }
  }

  /** A call that materializes brings both runs to the same timeline, or stops both with the same error. */
  lemma MaterializingStep(cfg: Config, a: World, b: World, lag: Option<int>, now: int, cmd: Command)
    requires ValidConfig(cfg) && WorldOk(cfg, a) && WorldOk(cfg, b) && Scripted(a) && Scripted(b) && Materializes(cmd)
    requires Behind(cfg, a, b, lag) && ObservedBy(a, now) && ObservedBy(b, now) && (lag.Some? ==> lag.value <= now)
    ensures var sa, sb := Step(cfg, a, now, cmd), Step(cfg, b, now, cmd);
            && (sa.Err? ==> sb == sa)
            && (sa.Ok? ==>
                  && sb.Ok? && sa.value.answer == sb.value.answer
                  && WorldOk(cfg, sb.value.world) && Behind(cfg, sa.value.world, sb.value.world, None)
                  && WorldOk(cfg, sa.value.world) && Scripted(sa.value.world) && Scripted(sb.value.world)
                  && ObservedBy(sa.value.world, now) && ObservedBy(sb.value.world, now))
  {
    assert a.core.history != [] && b.core.history != [];
    hide Drain, Scripted, Act, WorldOk, CheckInvariants;
    if lag.Some? { DrainTwice(cfg, b.core, lag.value, now); }
    MaterializeOk(cfg, a, now);
    MaterializeOk(cfg, b, now);
    MaterializeScripted(cfg, a, now);
    MaterializeScripted(cfg, b, now);
    var ma, mb := Materialize(cfg, a, now), Materialize(cfg, b, now);
    if ma.Ok? {
      assert ma.value == mb.value.(checks := ma.value.checks);
      ActAlike(cfg, ma.value, mb.value, now, cmd);
      ActScripted(cfg, ma.value, now, cmd);
      ActScripted(cfg, mb.value, now, cmd);
    }
    StepOk(cfg, a, now, cmd);
    StepOk(cfg, b, now, cmd);
  }

  lemma QuoteStepScripted(w: World, cmd: Command)
    requires w.core.history != [] && Scripted(w) && !Materializes(cmd)
    ensures Scripted(Configure(w, cmd).world) && Configure(w, cmd).world.materializedAt == w.materializedAt
  {
    if cmd.SetQuote? && QuoteAccepted(w, cmd.instrument, cmd.quote, cmd.allowCrossed) {
      var series := SeriesOf(w.core.quotes, cmd.instrument);
      assert Rising(series + [cmd.quote]);
    }
  }

  /** Reading up to `lag` and scripting a safe quote commute. */
  lemma {:induction false} SafeQuote(cfg: Config, b: World, lag: int, k: Instrument, q: Quote, allowCrossed: bool)
    requires b.core.history != [] && Scripted(b) && ObservedBy(b, lag) && QuoteAccepted(b, k, q, allowCrossed)
    requires q.at > lag && Untied(cfg, b.core, k, q, lag)
    ensures Drain(cfg, WithQuote(b.core, k, q), lag) == Requoted(Drain(cfg, b.core, lag), k, q)
  {
    hide Drain, WithQuote, FeesMiss, FeeLandsOn;
    assert ParkedBefore(b.core.parked, q.at);
    var series := SeriesOf(b.core.quotes, k);
    assert series != [] ==> forall i :: 0 <= i < |series| - 1 ==> series[i].at < series[|series| - 1].at;
    DrainCommutes(cfg, b.core, k, q, lag);
  }

  lemma {:induction false} DrainQuotes(cfg: Config, c: Core, now: int)
    requires c.history != []
    ensures Drain(cfg, c, now).Ok? ==> Drain(cfg, c, now).value.quotes == c.quotes
    decreases Weight(c)
  {
    if c.queue != [] && c.queue[0].at <= now {
      ApplyShrinks(cfg, Popped(c), c.queue[0].at, c.queue[0].event);
      ApplyFrame(cfg, Popped(c), c.queue[0].at, c.queue[0].event);
      var next := Apply(cfg, Popped(c), c.queue[0].at, c.queue[0].event);
      if next.Ok? { DrainQuotes(cfg, next.value, now); }
    }
  }

  /** A scripting call reads nothing, so it does the same to both runs. */
  lemma ConfiguringStep(cfg: Config, a: World, b: World, lag: Option<int>, now: int, cmd: Command)
    requires a.core.history != [] && b.core.history != [] && Scripted(b) && !Materializes(cmd)
    requires Behind(cfg, a, b, lag)
    requires cmd.SetQuote? && lag.Some? ==>
             cmd.quote.at > lag.value && Untied(cfg, b.core, cmd.instrument, cmd.quote, lag.value)
    ensures Configure(a, cmd).answer == Configure(b, cmd).answer
    ensures Behind(cfg, Configure(a, cmd).world, Configure(b, cmd).world, lag)
  {
    hide Drain, WithQuote, Untied, ScriptAccepted;
    if cmd.SetQuote? && lag.Some? {
      DrainQuotes(cfg, b.core, lag.value);
      assert QuoteAccepted(a, cmd.instrument, cmd.quote, cmd.allowCrossed)
         <==> QuoteAccepted(b, cmd.instrument, cmd.quote, cmd.allowCrossed);
      if QuoteAccepted(b, cmd.instrument, cmd.quote, cmd.allowCrossed) {
        SafeQuote(cfg, b, lag.value, cmd.instrument, cmd.quote, cmd.allowCrossed);
        KeepsHistory(b.core, cmd.instrument, cmd.quote);
      }
    }
  }

  lemma KeepsHistory(c: Core, k: Instrument, q: Quote)
    ensures WithQuote(c, k, q).history == c.history
  {
  }

  /** The run without reads cannot outlive an error that a read has already met. */
  lemma {:induction false} Doomed(cfg: Config, b: World, lag: int, e: ScriptError, script: seq<Call>, end: int)
    requires ValidConfig(cfg) && WorldOk(cfg, b) && Scripted(b) && ObservedBy(b, lag)
    requires Drain(cfg, b.core, lag) == Err(e) && ClockForward(lag, script) && EndsBy(script, end) && lag <= end
    requires QuotesSafe(cfg, b, Some(lag), script)
    ensures Observe(cfg, b, WithoutReads(script), end) == Err(e)
    decreases |script|
  {
    if script == [] {
      DrainTwice(cfg, b.core, lag, end);
    } else {
      var now, cmd := script[0].now, script[0].cmd;
      assert WithoutReads(script) == (if cmd.Read? then [] else [script[0]]) + WithoutReads(script[1..]);
      if cmd.Read? {
        DrainTwice(cfg, b.core, lag, now);
        assert EndsBy(script[1..], end);
        Doomed(cfg, b, now, e, script[1..], end);
        assert WithoutReads(script) == WithoutReads(script[1..]);
      } else if Materializes(cmd) {
        DrainTwice(cfg, b.core, lag, now);
        assert WithoutReads(script)[0] == script[0];
        assert Step(cfg, b, now, cmd) == Err(e);
        assert Run(cfg, b, WithoutReads(script)) == Err(e);
      } else {
        DoomedByConfiguring(cfg, b, lag, e, script, end);
      }
    }
  }

  lemma {:induction false} DoomedByConfiguring(cfg: Config, b: World, lag: int, e: ScriptError, script: seq<Call>,
                                               end: int)
    requires ValidConfig(cfg) && WorldOk(cfg, b) && Scripted(b) && ObservedBy(b, lag)
    requires script != [] && !Materializes(script[0].cmd)
    requires Drain(cfg, b.core, lag) == Err(e) && ClockForward(lag, script) && EndsBy(script, end) && lag <= end
    requires QuotesSafe(cfg, b, Some(lag), script)
    ensures Observe(cfg, b, WithoutReads(script), end) == Err(e)
    decreases |script|, 0
  {
    hide Drain, WithQuote, Untied, ScriptAccepted, QuoteAccepted, Sane, OrdersOk, ChecksOk;
    var now, cmd := script[0].now, script[0].cmd;
    var next := Configure(b, cmd).world;
    StepOk(cfg, b, now, cmd);
    QuoteStepScripted(b, cmd);
    if cmd.SetQuote? && QuoteAccepted(b, cmd.instrument, cmd.quote, cmd.allowCrossed) {
      SafeQuote(cfg, b, lag, cmd.instrument, cmd.quote, cmd.allowCrossed);
    }
    assert Drain(cfg, next.core, lag) == Err(e);
    assert ClockForward(lag, script[1..]) by { ClockEarlier(lag, now, script[1..]); }
    assert EndsBy(script[1..], end);
    Doomed(cfg, next, lag, e, script[1..], end);
    assert WithoutReads(script) == [script[0]] + WithoutReads(script[1..]);
    assert WithoutReads(script)[1..] == WithoutReads(script[1..]);
  }

  lemma {:induction false} ClockEarlier(from: int, later: int, script: seq<Call>)
    requires from <= later && ClockForward(later, script)
    ensures ClockForward(from, script)
  {
  }

  /** A call that is not a read, made by both runs. */
  lemma SharedStep(cfg: Config, a: World, b: World, lag: Option<int>, from: int, now: int, cmd: Command)
    requires ValidConfig(cfg) && WorldOk(cfg, a) && WorldOk(cfg, b) && Scripted(a) && Scripted(b)
    requires Behind(cfg, a, b, lag) && ObservedBy(a, from) && ObservedBy(b, from) && (lag.Some? ==> lag.value <= from)
    requires from <= now
    requires cmd.SetQuote? && lag.Some? ==>
             cmd.quote.at > lag.value && Untied(cfg, b.core, cmd.instrument, cmd.quote, lag.value)
    ensures var sa, sb := Step(cfg, a, now, cmd), Step(cfg, b, now, cmd);
            && (sa.Err? ==> sb == sa)
            && (sa.Ok? ==>
                  && sb.Ok? && sa.value.answer == sb.value.answer
                  && WorldOk(cfg, sa.value.world) && WorldOk(cfg, sb.value.world)
                  && Scripted(sa.value.world) && Scripted(sb.value.world)
                  && Behind(cfg, sa.value.world, sb.value.world, if Materializes(cmd) then None else lag)
                  && ObservedBy(sa.value.world, now) && ObservedBy(sb.value.world, now))
  {
    if Materializes(cmd) {
      MaterializingStep(cfg, a, b, lag, now, cmd);
    } else {
      hide Drain, QuoteAccepted, ScheduleAccepted, WithQuote;
      ConfiguringStep(cfg, a, b, lag, now, cmd);
      StepOk(cfg, a, now, cmd);
      StepOk(cfg, b, now, cmd);
      QuoteStepScripted(a, cmd);
      QuoteStepScripted(b, cmd);
    }
  }

  lemma {:induction false} SharedCall(cfg: Config, a: World, b: World, lag: Option<int>, from: int, script: seq<Call>,
                                      end: int)
    requires ValidConfig(cfg) && WorldOk(cfg, a) && WorldOk(cfg, b) && Scripted(a) && Scripted(b)
    requires Behind(cfg, a, b, lag) && ObservedBy(a, from) && ObservedBy(b, from) && (lag.Some? ==> lag.value <= from)
    requires script != [] && !script[0].cmd.Read?
    requires ClockForward(from, script) && EndsBy(script, end) && from <= end && QuotesSafe(cfg, b, lag, script)
    ensures Observe(cfg, a, script, end) == Observe(cfg, b, WithoutReads(script), end)
    decreases |script|, 0
  {
    hide Step, Drain, Behind, Scripted, Sane, OrdersOk, ChecksOk;
    var now, cmd := script[0].now, script[0].cmd;
    var rest := script[1..];
    assert WithoutReads(script) == [script[0]] + WithoutReads(rest);
    assert WithoutReads(script)[1..] == WithoutReads(rest);
    assert EndsBy(rest, end);
    assert now <= end;
    SharedStep(cfg, a, b, lag, from, now, cmd);
    var sa, sb := Step(cfg, a, now, cmd), Step(cfg, b, now, cmd);
    if sa.Ok? {
      PollIndependence(cfg, sa.value.world, sb.value.world, if Materializes(cmd) then None else lag, now, rest, end);
    }
  }

  /** Inserting reads anywhere changes neither the timeline a later read finds nor any answer nor any error. */
  lemma {:induction false} PollIndependence(cfg: Config, a: World, b: World, lag: Option<int>, from: int,
                                            script: seq<Call>, end: int)
    requires ValidConfig(cfg) && WorldOk(cfg, a) && WorldOk(cfg, b) && Scripted(a) && Scripted(b)
    requires Behind(cfg, a, b, lag) && ObservedBy(a, from) && ObservedBy(b, from) && (lag.Some? ==> lag.value <= from)
    requires ClockForward(from, script) && EndsBy(script, end) && from <= end && QuotesSafe(cfg, b, lag, script)
    ensures Observe(cfg, a, script, end) == Observe(cfg, b, WithoutReads(script), end)
    decreases |script|, 1
  {
    if script == [] {
      if lag.Some? { DrainTwice(cfg, b.core, lag.value, end); }
    } else if script[0].cmd.Read? {
      var now := script[0].now;
      var rest := script[1..];
      assert EndsBy(rest, end) && now <= end;
      assert WithoutReads(script) == WithoutReads(rest);
      if lag.Some? { DrainTwice(cfg, b.core, lag.value, now); }
      assert Drain(cfg, a.core, now) == Drain(cfg, b.core, now);
      MaterializeOk(cfg, a, now);
      MaterializeScripted(cfg, a, now);
      var r := Materialize(cfg, a, now);
      if r.Ok? {
        PollIndependence(cfg, r.value, b, Some(now), now, rest, end);
        assert Run(cfg, r.value, rest).Ok? ==>
          [] + Run(cfg, r.value, rest).value.answers == Run(cfg, r.value, rest).value.answers;
      } else {
        Doomed(cfg, b, now, r.error, rest, end);
      }
    } else {
      SharedCall(cfg, a, b, lag, from, script, end);
    }
  }

  /** From one world: any script whose quotes are safe ends the same with or without its reads. */
  lemma {:induction false} ReadsNeverMatter(cfg: Config, w: World, from: int, script: seq<Call>, end: int)
    requires ValidConfig(cfg) && WorldOk(cfg, w) && Scripted(w) && ObservedBy(w, from)
    requires ClockForward(from, script) && EndsBy(script, end) && from <= end && QuotesSafe(cfg, w, None, script)
    ensures Observe(cfg, w, script, end) == Observe(cfg, w, WithoutReads(script), end)
  {
    PollIndependence(cfg, w, w, None, from, script, end);
  }
}
