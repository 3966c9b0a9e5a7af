/** Timelines that agree up to the order of same-instant events with nothing to do with each other stay so as events are
    applied. */
module SimulatorTies {
  import opened Common
  import opened SimulatorModel
  import opened SimulatorCommands
  import opened SimulatorOrders
  import opened SimulatorPolling
  import opened SimulatorTimeline
  import opened SimulatorSwaps
  import opened SimulatorViews
  import opened SimulatorEffects
  import opened SimulatorPushes

  /** The same account, orders, quotes, batches and draws, the same activities up to order and draw numbers, and
      queues that differ by swaps only. */
  ghost predicate SameButTies(c: Core, d: Core) {
    ViewOf(c) == ViewOf(d) && Connected(c.orders, PlainQueue(c.queue), PlainQueue(d.queue))
  }

  /** Both fail, or both succeed with timelines that agree up to ties. */
  ghost predicate SameOutcome(r: Outcome, s: Outcome) {
    (r.Err? <==> s.Err?) && (r.Ok? ==> SameButTies(r.value, s.value))
  }

  ghost predicate SameBeside(c: Core, d: Core) {
    Bare(c) == Bare(d) && PlainActivities(c.activities) == PlainActivities(d.activities)
  }

  lemma {:induction false} TiedIfConnected(c: Core, d: Core)
    requires SameBeside(c, d) && Connected(c.orders, PlainQueue(c.queue), PlainQueue(d.queue))
    ensures SameButTies(c, d)
  {
    hide PlainQueue, PlainActivities, Connected;
    ConnectedCounts(c.orders, PlainQueue(c.queue), PlainQueue(d.queue));
    assert c == Bare(c).(queue := c.queue, activities := c.activities);
    assert d == Bare(d).(queue := d.queue, activities := d.activities);
  }

  lemma {:induction false} ConnectedCounts(orders: seq<Order>, p: seq<Timed>, q: seq<Timed>)
    requires Connected(orders, p, q)
    ensures |q| == |p| && multiset(q) == multiset(p) && forall j :: 0 <= j < |p| ==> q[j].at == p[j].at
  {
    var n: nat :| ConnectedIn(orders, p, q, n);
    ConnectedKeeps(orders, p, q, n);
  }

  lemma SameViewBeside(c: Core, d: Core)
    requires ViewOf(c) == ViewOf(d)
    ensures SameBeside(c, d)
  {
  }

  lemma {:induction false} SameIsTied(c: Core)
    ensures SameButTies(c, c)
  {
    Same(c.orders, PlainQueue(c.queue));
  }

  lemma {:induction false} TiedChain(a: Core, b: Core, c: Core)
    requires SameButTies(a, b) && SameButTies(b, c)
    ensures SameButTies(a, c)
  {
    hide PlainQueue, PlainActivities, Connected;
    Chain(a.orders, PlainQueue(a.queue), PlainQueue(b.queue), PlainQueue(c.queue));
  }

  // ---- one event on both ----

  lemma OrdersKeepKinds(cfg: Config, c: Core, at: int, e: Event)
    requires c.history != []
    ensures var r := Apply(cfg, c, at, e); r.Ok? ==> SameKinds(c.orders, r.value.orders)
  {
    hide Apply;
    ApplyTerms(cfg, c, at, e);
  }

  lemma {:induction false} KindsKeepConnected(before: seq<Order>, after: seq<Order>, p: seq<Timed>, q: seq<Timed>)
    requires SameKinds(before, after) && Connected(before, p, q)
    ensures Connected(after, p, q)
  {
    var n: nat :| ConnectedIn(before, p, q, n);
    SameKindsKeep(before, after, p, q, n);
  }

  /** What is put on top of two such timelines keeps them so. */
  lemma {:induction false} OntoBoth(c: Core, d: Core, r: Core, s: Core)
    requires SameButTies(c, d) && SameKinds(c.orders, r.orders) && s == r.(activities := s.activities)
    requires PlainActivities(s.activities) == PlainActivities(r.activities)
    ensures SameButTies(Onto(c, r), Onto(d, s))
  {
    hide PlainQueue, PlainActivities, Connected, Merge, SameKinds;
    SameViewBeside(c, d);
    ActivityParts(c.activities, r.activities);
    ActivityParts(d.activities, s.activities);
    var p, q := PlainQueue(c.queue), PlainQueue(d.queue);
    KindsKeepConnected(c.orders, r.orders, p, q);
    MergeKeeps(r.orders, p, q, PlainQueue(r.queue));
    PlainMerge(c.queue, r.queue);
    PlainMerge(d.queue, r.queue);
    TiedIfConnected(Onto(c, r), Onto(d, s));
  }

  lemma {:induction false} Lockstep(cfg: Config, c: Core, d: Core, at: int, e: Event, f: Event)
    requires c.history != [] && d.history != [] && SameButTies(c, d) && Plain(e) == Plain(f)
    ensures SameOutcome(Apply(cfg, c, at, e), Apply(cfg, d, at, f))
  {
    hide Apply, PlainQueue, PlainActivities, Connected, Onto, SameKinds;
    SameViewBeside(c, d);
    ApplyOnto(cfg, c, at, e);
    ApplyOnto(cfg, d, at, f);
    DrawsApart(cfg, Bare(c), at, e, f);
    OrdersKeepKinds(cfg, Bare(c), at, e);
    var r, s := Apply(cfg, Bare(c), at, e), Apply(cfg, Bare(c), at, f);
    if r.Ok? { OntoBoth(c, d, r.value, s.value); }
  }

  // ---- the two orders of two neighbours ----

  function With(c: Core, queue: seq<Timed>): Core { c.(queue := queue) }

  /** An event that queues nothing earlier than the next one leaves it next. */
  lemma {:induction false} NextStaysNext(cfg: Config, c: Core, at: int, e: Event, y: Timed, rest: seq<Timed>)
    requires DelaysOk(cfg) && c.history != [] && y.at == at
    ensures var r, s := Apply(cfg, With(c, [y] + rest), at, e), Apply(cfg, With(c, rest), at, e);
            && (r.Err? || s.Err? ==> r == s)
            && (r.Ok? ==> r.value.queue == [y] + s.value.queue && Popped(r.value) == s.value)
  {
    hide Apply, Merge;
    var base := Bare(c);
    assert Bare(With(c, [y] + rest)) == base && Bare(With(c, rest)) == base;
    ApplyOnto(cfg, With(c, [y] + rest), at, e);
    ApplyOnto(cfg, With(c, rest), at, e);
    ApplyQueues(cfg, base, at, e);
    var r := Apply(cfg, base, at, e);
    if r.Ok? {
      MergeBehindHead(y, rest, r.value.queue);
      assert ([y] + Merge(rest, r.value.queue))[1..] == Merge(rest, r.value.queue);
    }
  }

  /** Both events, one after the other. */
  function ApplyTwice(cfg: Config, c: Core, at: int, e: Event, f: Event): Outcome
    requires c.history != []
  {
    ApplyShrinks(cfg, c, at, e);
    match Apply(cfg, c, at, e) case Err(x) => Err(x) case Ok(next) => Apply(cfg, next, at, f)
  }

  lemma TwiceAlike(cfg: Config, c: Core, at: int, e: Event, f: Event)
    requires c.history != [] && Apart(c.orders, e, f)
    ensures Alike(ApplyTwice(cfg, c, at, e, f), AfterTwice(cfg, ViewOf(c), at, Plain(e), Plain(f)))
  {
    hide Apply, ViewOf, After, SameKinds, Loose;
    assert Loose(c.orders, e) && Loose(c.orders, f);
    EventAlike(cfg, c, at, e);
    OrdersKeepKinds(cfg, c, at, e);
    ApplyShrinks(cfg, c, at, e);
    var next := Apply(cfg, c, at, e);
    if next.Ok? {
      StillLoose(c.orders, next.value.orders, f);
      EventAlike(cfg, next.value, at, f);
    }
  }

  lemma StillLoose(before: seq<Order>, after: seq<Order>, e: Event)
    requires SameKinds(before, after) && Loose(before, e)
    ensures Loose(after, e) && Touches(after, e) == Touches(before, e)
  {
  }

  lemma PlainApart(orders: seq<Order>, e: Event, f: Event)
    ensures Apart(orders, Plain(e), Plain(f)) <==> Apart(orders, e, f)
    ensures Touches(orders, Plain(e)) == Touches(orders, e) && Loose(orders, Plain(e)) == Loose(orders, e)
  {
  }

  ghost predicate PostsAreDue(c: Core) {
    forall t :: t in c.queue ==> PostDue(c.batches, t.at, t.event)
  }

  /** What two such events queue, in whichever order. */
  lemma {:induction false} QueuedByTwo(cfg: Config, c: Core, at: int, e: Event, f: Event) returns (p: seq<Timed>)
    requires DelaysOk(cfg) && c.history != [] && Apart(c.orders, e, f) && ApplyTwice(cfg, c, at, e, f).Ok?
    ensures var r := ApplyTwice(cfg, c, at, e, f).value;
            && r.queue == Merge(c.queue, p) && AllFree(c.orders, PlainQueue(p)) && SameKinds(c.orders, r.orders)
  {
    hide Apply, Merge, SameKinds, PlainQueue, OwnPushes;
    var next := Apply(cfg, c, at, e).value;
    ApplyShrinks(cfg, c, at, e);
    ApplyOnto(cfg, c, at, e);
    ApplyQueues(cfg, Bare(c), at, e);
    OrdersKeepKinds(cfg, c, at, e);
    ApplyOnto(cfg, next, at, f);
    ApplyQueues(cfg, Bare(next), at, f);
    OrdersKeepKinds(cfg, next, at, f);
    var a, b := Apply(cfg, Bare(c), at, e).value.queue, Apply(cfg, Bare(next), at, f).value.queue;
    p := a + b;
    MergeParts(c.queue, a, b);
    KindsChain(c.orders, next.orders, Apply(cfg, next, at, f).value.orders);
    ApplyShrinks(cfg, c, at, e);
    PushesBefore(c.orders, next.orders, at, f, b);
    TwoPushesFree(c.orders, at, e, f, a, b);
  }

  lemma KindsChain(a: seq<Order>, b: seq<Order>, c: seq<Order>)
    requires SameKinds(a, b) && SameKinds(b, c)
    ensures SameKinds(a, c)
  {
  }

  lemma PushesBefore(before: seq<Order>, after: seq<Order>, at: int, e: Event, pushed: seq<Timed>)
    requires SameKinds(before, after) && |before| == |after| && OwnPushes(after, at, e, pushed)
    ensures OwnPushes(before, at, e, pushed)
  {
    hide SameKinds, Loose, Touches;
    SameTouch(before, after, e);
    forall t | t in pushed
      ensures Loose(before, t.event) == Loose(after, t.event) && Touches(before, t.event) == Touches(after, t.event)
    {
      SameTouch(before, after, t.event);
    }
  }

  lemma SameTouch(before: seq<Order>, after: seq<Order>, e: Event)
    requires SameKinds(before, after) && |before| == |after|
    ensures Loose(before, e) == Loose(after, e) && Touches(before, e) == Touches(after, e)
  {
  }

  lemma {:induction false} TwoPushesFree(orders: seq<Order>, at: int, e: Event, f: Event, a: seq<Timed>, b: seq<Timed>)
    requires Apart(orders, e, f) && OwnPushes(orders, at, e, a) && OwnPushes(orders, at, f, b)
    ensures AllFree(orders, PlainQueue(a + b))
  {
    hide Loose, Touches, PlainQueue;
    var p := a + b;
    forall x, y | x in PlainQueue(p) && y in PlainQueue(p) ensures FreeOf(orders, x, y) {
      var i :| 0 <= i < |p| && PlainQueue(p)[i] == x;
      var j :| 0 <= j < |p| && PlainQueue(p)[j] == y;
      assert x == PlainTimed(p[i]) && y == PlainTimed(p[j]);
      assert (p[i] in a || p[i] in b) && (p[j] in a || p[j] in b);
      PlainApart(orders, p[i].event, p[j].event);
      PlainApart(orders, p[j].event, p[i].event);
    }
  }

  /** The diamond: both orders of two due events that have nothing to do with each other, on two such timelines. */
  lemma {:induction false} EitherOrder(cfg: Config, c: Core, d: Core, at: int, x: Event, y: Event, u: Event, v: Event)
    requires DelaysOk(cfg) && c.history != [] && d.history != [] && HistoryRising(c.history) && LastAt(c.history) <= at
    requires SameBeside(c, d) && PlainQueue(c.queue) == PlainQueue(d.queue)
    requires Apart(c.orders, x, y) && Plain(u) == Plain(x) && Plain(v) == Plain(y)
    requires PostDue(c.batches, at, x) && PostDue(c.batches, at, y)
    ensures SameOutcome(ApplyTwice(cfg, c, at, x, y), ApplyTwice(cfg, d, at, v, u))
  {
    hide ApplyTwice, AfterTwice, PlainQueue, PlainActivities, Apart, HistoryRising, SameKinds, AllFree, PostDue;
    PlainApart(c.orders, x, y);
    PlainApart(c.orders, u, v);
    assert ViewOf(c) == ViewOf(d) by { BesideSameView(c, d); }
    TwiceAlike(cfg, c, at, x, y);
    ApartOtherWay(c.orders, u, v);
    TwiceAlike(cfg, d, at, v, u);
    PlainPostDue(c.batches, at, x);
    PlainPostDue(c.batches, at, y);
    EventsCommute(cfg, ViewOf(c), at, Plain(x), Plain(y));
    var r, s := ApplyTwice(cfg, c, at, x, y), ApplyTwice(cfg, d, at, v, u);
    if r.Ok? {
      var p := QueuedByTwo(cfg, c, at, x, y);
      var q := QueuedByTwo(cfg, d, at, v, u);
      QueuesConnected(c, d, r.value, s.value, p, q);
    }
  }

  lemma BesideSameView(c: Core, d: Core)
    requires SameBeside(c, d) && PlainQueue(c.queue) == PlainQueue(d.queue)
    ensures ViewOf(c) == ViewOf(d)
  {
    assert c == Bare(c).(queue := c.queue, activities := c.activities);
    assert d == Bare(d).(queue := d.queue, activities := d.activities);
  }

  lemma ApartOtherWay(orders: seq<Order>, e: Event, f: Event)
    requires Apart(orders, e, f)
    ensures Apart(orders, f, e)
  {
  }

  lemma PlainPostDue(batches: map<BatchKey, Batch>, at: int, e: Event)
    ensures PostDue(batches, at, Plain(e)) == PostDue(batches, at, e)
  {
  }

  lemma {:induction false} MergeCounts(queue: seq<Timed>, pushed: seq<Timed>)
    ensures multiset(Merge(queue, pushed)) == multiset(queue) + multiset(pushed)
    decreases |pushed|
  {
    if pushed != [] {
      var t := pushed[0];
      InsertCounts(queue, t.at, t.event);
      MergeCounts(Insert(queue, t.at, t.event), pushed[1..]);
      assert pushed == [t] + pushed[1..];
    }
  }

  /** Equal views mean that the same events were queued. */
  lemma {:induction false} QueuesConnected(c: Core, d: Core, r: Core, s: Core, p: seq<Timed>, q: seq<Timed>)
    requires PlainQueue(c.queue) == PlainQueue(d.queue) && ViewOf(r) == ViewOf(s)
    requires r.queue == Merge(c.queue, p) && s.queue == Merge(d.queue, q)
    requires AllFree(c.orders, PlainQueue(p)) && SameKinds(c.orders, r.orders)
    ensures SameButTies(r, s)
  {
    hide PlainQueue, PlainActivities, Merge, AllFree, Connected, SameKinds;
    var queue, a, b := PlainQueue(c.queue), PlainQueue(p), PlainQueue(q);
    PlainMerge(c.queue, p);
    PlainMerge(d.queue, q);
    MergeCounts(queue, a);
    MergeCounts(queue, b);
    assert multiset(queue) + multiset(a) == multiset(queue) + multiset(b);
    SameAdded(multiset(queue), multiset(a), multiset(b));
    PushedInAnyOrder(c.orders, queue, a, b);
    KindsKeepConnected(c.orders, r.orders, Merge(queue, a), Merge(queue, b));
  }

  lemma SameAdded<T>(x: multiset<T>, a: multiset<T>, b: multiset<T>)
    requires x + a == x + b
    ensures a == b
  {
    assert x + a - x == a && x + b - x == b;
  }

  // ---- what draining keeps ----

  lemma {:induction false} AccrueAllKeepsDue(cfg: Config, c: Core, at: int, charges: seq<Charge>)
    requires cfg.fees.Some? && PostsAreDue(c)
    ensures var r := AccrueAll(cfg, c, at, charges); r.Ok? ==> PostsAreDue(r.value)
    decreases |charges|
  {
    if charges != [] {
      hide PostsAt, Insert;
      var x := charges[0];
      var r := Accrue(c, at, x.key, PostsAt(cfg, x.key), x.amount, x.proceeds, x.units);
      InsertMembers(c.queue, PostsAt(cfg, x.key), PostBatch(x.key));
      if r.Ok? { AccrueAllKeepsDue(cfg, r.value, at, charges[1..]); }
    }
  }

  lemma PushKeepsDue(c: Core, t: int, e: Event)
    requires PostsAreDue(c) && PostDue(c.batches, t, e)
    ensures PostsAreDue(Push(c, t, e))
  {
    InsertMembers(c.queue, t, e);
  }

  lemma ExecuteKeepsDue(cfg: Config, c: Core, id: nat, at: int, scripted: real, price: real)
    requires c.history != [] && id < |c.orders| && PostsAreDue(c)
    ensures var r := Execute(cfg, c, id, at, scripted, price); r.Ok? ==> PostsAreDue(r.value)
  {
    hide BookFill, WithFill, AccrueAll, Charges, Insert, OwnFee;
    var qty := scripted + c.orders[id].overfill;
    var executed := Executed(cfg, c, id, at, scripted, price);
    var o := executed.orders[id];
    var booked := BookFill(c.history, o, at, qty, price);
    if booked.Ok? && cfg.fees.Some? {
      var paid := executed.(history := booked.value);
      var own := OwnFee(cfg, o, at, qty, price, c.draws);
      if own.Some? {
        PushKeepsDue(paid, own.value.at, own.value.event);
        AccrueAllKeepsDue(cfg, Push(paid, own.value.at, own.value.event), at, Charges(cfg, o, at, qty, price));
      } else {
        AccrueAllKeepsDue(cfg, paid, at, Charges(cfg, o, at, qty, price));
      }
    }
  }

  lemma ApplyKeepsDue(cfg: Config, c: Core, at: int, e: Event)
    requires c.history != [] && PostsAreDue(c)
    ensures var r := Apply(cfg, c, at, e); r.Ok? ==> PostsAreDue(r.value)
  {
    hide PlanFill, Execute, BookFee, Insert;
    if e.Fill? && e.orderId < |c.orders| && !IsTerminal(c.orders[e.orderId].status) {
      var o := c.orders[e.orderId];
      var plan := PlanFill(c.quotes, o, at, e);
      if plan.Take? {
        ExecuteKeepsDue(cfg, c, e.orderId, at, plan.scripted, plan.price);
      } else if plan.Wait? {
        var later := Later(SeriesOf(c.quotes, o.instrument), at);
        if later != [] { PushKeepsDue(c, later[0].at, e); }
      }
    }
  }

  // ---- weights ----

  lemma {:induction false} PlainWeight(quotes: map<Instrument, seq<Quote>>, instruments: seq<Instrument>,
                                       queue: seq<Timed>)
    ensures QueueWeight(quotes, instruments, PlainQueue(queue)) == QueueWeight(quotes, instruments, queue)
  {
    if queue != [] {
      PlainWeight(quotes, instruments, queue[1..]);
      assert PlainQueue(queue)[1..] == PlainQueue(queue[1..]);
    }
  }

  lemma {:induction false} SwapWeight(quotes: map<Instrument, seq<Quote>>, instruments: seq<Instrument>,
                                      orders: seq<Order>, p: seq<Timed>, q: seq<Timed>, i: int)
    requires SwapsAt(orders, p, q, i)
    ensures QueueWeight(quotes, instruments, q) == QueueWeight(quotes, instruments, p)
    decreases |p|
  {
    hide EventWeight, Apart;
    if i == 0 {
      assert p[1..][1..] == p[2..] && q[1..][1..] == p[2..];
    } else {
      assert SwapsAt(orders, p[1..], q[1..], i - 1);
      SwapWeight(quotes, instruments, orders, p[1..], q[1..], i - 1);
    }
  }

  // ---- draining two such timelines ----

  ghost predicate SoundQueue(c: Core, floor: int) {
    InOrder(c, floor) && PostsAreDue(c)
  }

  lemma {:induction false} StepSound(cfg: Config, c: Core, floor: int)
    requires DelaysOk(cfg) && SoundQueue(c, floor) && c.queue != []
    ensures var head := c.queue[0];
            var r := Apply(cfg, Popped(c), head.at, head.event);
            r.Ok? ==> SoundQueue(r.value, head.at) && Weight(r.value) < Weight(c)
  {
    hide Apply, InOrder, EventWeight;
    var head := c.queue[0];
    PoppedInOrder(c, floor);
    ApplyInOrder(cfg, Popped(c), head.at, head.event);
    ApplyKeepsDue(cfg, Popped(c), head.at, head.event);
    ApplyShrinks(cfg, Popped(c), head.at, head.event);
  }

  lemma {:induction false} PoppedTied(c: Core, d: Core)
    requires SameBeside(c, d) && c.queue != [] && d.queue != []
    requires Connected(c.orders, PlainQueue(c.queue[1..]), PlainQueue(d.queue[1..]))
    ensures SameButTies(Popped(c), Popped(d))
  {
    TiedIfConnected(Popped(c), Popped(d));
  }

  function ThenDrain(cfg: Config, r: Outcome, now: int): Outcome
    requires r.Ok? ==> r.value.history != []
  {
    match r case Err(e) => Err(e) case Ok(c) => Drain(cfg, c, now)
  }

  lemma TwiceKeepsHistory(cfg: Config, c: Core, at: int, e: Event, f: Event)
    requires c.history != []
    ensures ApplyTwice(cfg, c, at, e, f).Ok? ==> ApplyTwice(cfg, c, at, e, f).value.history != []
  {
    ApplyShrinks(cfg, c, at, e);
    var r := Apply(cfg, c, at, e);
    if r.Ok? { ApplyShrinks(cfg, r.value, at, f); }
  }

  lemma {:induction false} DrainsHead(cfg: Config, c: Core, now: int)
    requires c.history != [] && c.queue != [] && c.queue[0].at <= now
    ensures var r := Apply(cfg, Popped(c), c.queue[0].at, c.queue[0].event);
            (r.Ok? ==> r.value.history != []) && Drain(cfg, c, now) == ThenDrain(cfg, r, now)
  {
    hide Apply;
    ApplyShrinks(cfg, Popped(c), c.queue[0].at, c.queue[0].event);
  }

  /** Two heads due at one instant are applied one after the other, whatever the first queues. */
  lemma {:induction false} DrainTwoHeads(cfg: Config, c: Core, now: int)
    requires DelaysOk(cfg) && c.history != [] && |c.queue| >= 2 && c.queue[0].at == c.queue[1].at <= now
    ensures var both := ApplyTwice(cfg, With(c, c.queue[2..]), c.queue[0].at, c.queue[0].event, c.queue[1].event);
            && (both.Ok? ==> both.value.history != [])
            && Drain(cfg, c, now) == ThenDrain(cfg, both, now)
  {
    hide Apply, Drain;
    var x, y, rest := c.queue[0], c.queue[1], c.queue[2..];
    assert Popped(c) == With(c, [y] + rest);
    NextStaysNext(cfg, c, x.at, x.event, y, rest);
    TwiceKeepsHistory(cfg, With(c, rest), x.at, x.event, y.event);
    DrainsHead(cfg, c, now);
    var next := Apply(cfg, Popped(c), x.at, x.event);
    if next.Ok? { DrainsHead(cfg, next.value, now); }
  }

  lemma {:induction false} TwoStepsSound(cfg: Config, c: Core, floor: int)
    requires DelaysOk(cfg) && SoundQueue(c, floor) && |c.queue| >= 2 && c.queue[0].at == c.queue[1].at
    ensures c.history != []
    ensures var at := c.queue[0].at;
            var r := ApplyTwice(cfg, With(c, c.queue[2..]), at, c.queue[0].event, c.queue[1].event);
            r.Ok? ==> SoundQueue(r.value, at) && Weight(r.value) < Weight(c)
  {
    hide Apply, Weight, InOrder;
    HasHistory(c, floor);
    var x, y, rest := c.queue[0], c.queue[1], c.queue[2..];
    assert Popped(c) == With(c, [y] + rest);
    NextStaysNext(cfg, c, x.at, x.event, y, rest);
    StepSound(cfg, c, floor);
    var next := Apply(cfg, Popped(c), x.at, x.event);
    if next.Ok? { StepSound(cfg, next.value, x.at); }
  }

  lemma HasHistory(c: Core, floor: int)
    requires InOrder(c, floor)
    ensures c.history != [] && HistoryRising(c.history) && LastAt(c.history) <= floor
    ensures c.queue != [] ==> floor <= c.queue[0].at
  {
    assert c.queue != [] ==> c.queue[0] in c.queue;
  }

  /** Both timelines apply the same head. */
  lemma {:induction false} DrainSameHeads(cfg: Config, c: Core, d: Core, floor: int, now: int)
    requires DelaysOk(cfg) && SoundQueue(c, floor) && SameBeside(c, d)
    requires c.queue != [] && d.queue != [] && c.queue[0].at <= now && PlainTimed(c.queue[0]) == PlainTimed(d.queue[0])
    requires Connected(c.orders, PlainQueue(c.queue[1..]), PlainQueue(d.queue[1..]))
    ensures c.history != [] && d.history != [] && SameOutcome(Drain(cfg, c, now), Drain(cfg, d, now))
    decreases Weight(c), 0, 0
  {
    hide Apply, InOrder, SameButTies, PlainQueue, Connected, Weight, PostsAreDue;
    HasHistory(c, floor);
    assert d.history == Bare(d).history;
    PoppedTied(c, d);
    StepSound(cfg, c, floor);
    var x, y := c.queue[0], d.queue[0];
    Lockstep(cfg, Popped(c), Popped(d), x.at, x.event, y.event);
    ApplyShrinks(cfg, Popped(c), x.at, x.event);
    ApplyShrinks(cfg, Popped(d), y.at, y.event);
    var r, s := Apply(cfg, Popped(c), x.at, x.event), Apply(cfg, Popped(d), y.at, y.event);
    if r.Ok? { DrainTied(cfg, r.value, s.value, x.at, now); }
  }

  /** The two heads have changed places. */
  lemma {:induction false} DrainSwappedHeads(cfg: Config, c: Core, d: Core, floor: int, now: int)
    requires DelaysOk(cfg) && SoundQueue(c, floor) && SameBeside(c, d)
    requires SwapsAt(c.orders, PlainQueue(c.queue), PlainQueue(d.queue), 0) && c.queue[0].at <= now
    ensures c.history != [] && d.history != [] && SameOutcome(Drain(cfg, c, now), Drain(cfg, d, now))
    decreases Weight(c), 0, 0
  {
    hide Apply, ApplyTwice, Drain, InOrder, SameButTies, Apart, Weight, PostDue;
    HasHistory(c, floor);
    assert d.history == Bare(d).history;
    SwappedHeads(c, d);
    var x, y, u, v := c.queue[0], c.queue[1], d.queue[1], d.queue[0];
    DrainTwoHeads(cfg, c, now);
    DrainTwoHeads(cfg, d, now);
    TwoStepsSound(cfg, c, floor);
    var e, f := With(c, c.queue[2..]), With(d, d.queue[2..]);
    assert x in c.queue && y in c.queue;
    EitherOrder(cfg, e, f, x.at, x.event, y.event, u.event, v.event);
    var r, s := ApplyTwice(cfg, e, x.at, x.event, y.event), ApplyTwice(cfg, f, x.at, v.event, u.event);
    if r.Ok? { DrainTied(cfg, r.value, s.value, x.at, now); }
  }

  lemma {:induction false} SwappedHeads(c: Core, d: Core)
    requires SameBeside(c, d) && SwapsAt(c.orders, PlainQueue(c.queue), PlainQueue(d.queue), 0)
    ensures |c.queue| >= 2 && |d.queue| == |c.queue|
    ensures c.queue[0].at == c.queue[1].at == d.queue[0].at == d.queue[1].at
    ensures Plain(c.queue[0].event) == Plain(d.queue[1].event) && Plain(c.queue[1].event) == Plain(d.queue[0].event)
    ensures Apart(c.orders, c.queue[0].event, c.queue[1].event)
    ensures SameBeside(With(c, c.queue[2..]), With(d, d.queue[2..]))
    ensures PlainQueue(c.queue[2..]) == PlainQueue(d.queue[2..])
  {
    hide Apart, Plain;
    var p, q := PlainQueue(c.queue), PlainQueue(d.queue);
    assert p[0] == PlainTimed(c.queue[0]) && p[1] == PlainTimed(c.queue[1]);
    assert q[0] == PlainTimed(d.queue[0]) && q[1] == PlainTimed(d.queue[1]);
    PlainApart(c.orders, c.queue[0].event, c.queue[1].event);
    var a, b := c.queue[2..], d.queue[2..];
    forall i | 0 <= i < |a| ensures PlainQueue(a)[i] == PlainQueue(b)[i] {
      assert PlainQueue(a)[i] == p[i + 2] && PlainQueue(b)[i] == q[i + 2];
    }
  }

  lemma {:induction false} SwapBehindHead(orders: seq<Order>, p: seq<Timed>, q: seq<Timed>, i: int)
    requires SwapsAt(orders, p, q, i) && i > 0
    ensures p != [] && q != [] && p[0] == q[0] && Connected(orders, p[1..], q[1..])
  {
    hide Apart;
    assert SwapsAt(orders, p[1..], q[1..], i - 1);
    OneSwap(orders, p[1..], q[1..], i - 1);
  }

  lemma {:induction false} HeadPlain(queue: seq<Timed>)
    requires queue != []
    ensures PlainQueue(queue)[0] == PlainTimed(queue[0]) && PlainQueue(queue)[1..] == PlainQueue(queue[1..])
  {
  }

  /** One swap apart. */
  lemma {:induction false} DrainOneSwap(cfg: Config, c: Core, d: Core, i: int, floor: int, now: int)
    requires DelaysOk(cfg) && SoundQueue(c, floor) && SameBeside(c, d) && c.queue != [] && c.queue[0].at <= now
    requires SwapsAt(c.orders, PlainQueue(c.queue), PlainQueue(d.queue), i)
    ensures c.history != [] && d.history != [] && SameOutcome(Drain(cfg, c, now), Drain(cfg, d, now))
    decreases Weight(c), 1, 0
  {
    if i == 0 {
      DrainSwappedHeads(cfg, c, d, floor, now);
    } else {
      SwapBehindHead(c.orders, PlainQueue(c.queue), PlainQueue(d.queue), i);
      hide Drain, SoundQueue, SameBeside, Weight, PlainTimed, SameOutcome, Connected, SwapsAt;
      HeadPlain(c.queue);
      HeadPlain(d.queue);
      DrainSameHeads(cfg, c, d, floor, now);
    }
  }

  /** Where each entry of a swapped queue comes from. */
  lemma {:induction false} SwapTakesFrom(orders: seq<Order>, queue: seq<Timed>, m: seq<Timed>, i: int)
    requires SwapsAt(orders, PlainQueue(queue), m, i)
    ensures |m| == |queue| && PlainQueue(m) == m && forall j :: 0 <= j < |m| ==> m[j].at == queue[j].at
    ensures forall t :: t in m ==> exists u :: u in queue && t == PlainTimed(u)
  {
    hide Apart, Plain;
    var p := PlainQueue(queue);
    forall j | 0 <= j < |m|
      ensures m[j].at == queue[j].at && PlainTimed(m[j]) == m[j] && exists u :: u in queue && m[j] == PlainTimed(u)
    {
      var k := if j == i then i + 1 else if j == i + 1 then i else j;
      assert m[j] == p[k] == PlainTimed(queue[k]) && queue[k] in queue;
      PlainTimedTwice(queue[k]);
    }
  }

  lemma PlainTimedTwice(t: Timed)
    ensures PlainTimed(PlainTimed(t)) == PlainTimed(t)
  {
  }

  /** A timeline one swap from a sound one is sound, and has as much left to do. */
  lemma {:induction false} SwapSound(c: Core, m: seq<Timed>, i: int, floor: int)
    requires SoundQueue(c, floor) && SwapsAt(c.orders, PlainQueue(c.queue), m, i)
    ensures SoundQueue(With(c, m), floor) && PlainQueue(m) == m && SameBeside(c, With(c, m))
            && Weight(With(c, m)) == Weight(c)
  {
    hide SwapsAt, QueueWeight, HistoryRising, PlainQueue, PlainTimed, PostDue;
    SwapTakesFrom(c.orders, c.queue, m, i);
    forall t | t in m ensures t.at >= floor && PostDue(c.batches, t.at, t.event) {
      var u :| u in c.queue && t == PlainTimed(u);
      PlainTimedDue(c.batches, u);
    }
    PlainWeight(c.quotes, Instruments(c.orders), c.queue);
    SwapWeight(c.quotes, Instruments(c.orders), c.orders, PlainQueue(c.queue), m, i);
  }

  lemma PlainTimedDue(batches: map<BatchKey, Batch>, t: Timed)
    ensures var p := PlainTimed(t); p.at == t.at && PostDue(batches, p.at, p.event) == PostDue(batches, t.at, t.event)
  {
  }

  lemma {:induction false} NothingDue(cfg: Config, c: Core, d: Core, now: int)
    requires c.history != [] && d.history != [] && SameButTies(c, d) && (c.queue == [] || c.queue[0].at > now)
    ensures Drain(cfg, c, now) == Ok(c) && Drain(cfg, d, now) == Ok(d)
  {
    hide Connected;
    ConnectedCounts(c.orders, PlainQueue(c.queue), PlainQueue(d.queue));
    if d.queue != [] { HeadPlain(d.queue); }
    if c.queue != [] { HeadPlain(c.queue); }
  }

  lemma {:induction false} DrainLinked(cfg: Config, c: Core, d: Core, n: nat, floor: int, now: int)
    requires DelaysOk(cfg) && SoundQueue(c, floor) && SameBeside(c, d) && c.queue != [] && c.queue[0].at <= now
    requires ConnectedIn(c.orders, PlainQueue(c.queue), PlainQueue(d.queue), n)
    ensures c.history != [] && d.history != [] && SameOutcome(Drain(cfg, c, now), Drain(cfg, d, now))
    decreases Weight(c), 2, n
  {
    hide Drain, SoundQueue, SameBeside, Weight, Connected, SameOutcome, SwapsAt;
    var p, q := PlainQueue(c.queue), PlainQueue(d.queue);
    ConnectedKeeps(c.orders, p, q, n);
    HeadPlain(c.queue);
    if n == 0 {
      HeadPlain(d.queue);
      Same(c.orders, p[1..]);
      DrainSameHeads(cfg, c, d, floor, now);
    } else {
      var m :| Swaps(c.orders, p, m) && ConnectedIn(c.orders, m, q, n - 1);
      var i :| SwapsAt(c.orders, p, m, i);
      SwapKeeps(c.orders, p, m, i);
      var mid := With(c, m);
      SwapSound(c, m, i, floor);
      DrainOneSwap(cfg, c, mid, i, floor, now);
      BesideChain(mid, c, d);
      DrainLinked(cfg, mid, d, n - 1, floor, now);
      OutcomeChain(Drain(cfg, c, now), Drain(cfg, mid, now), Drain(cfg, d, now));
    }
  }

  lemma BesideChain(a: Core, b: Core, c: Core)
    requires SameBeside(b, a) && SameBeside(b, c)
    ensures SameBeside(a, c)
  {
  }

  lemma {:induction false} OutcomeChain(r: Outcome, s: Outcome, t: Outcome)
    requires SameOutcome(r, s) && SameOutcome(s, t)
    ensures SameOutcome(r, t)
  {
    hide SameButTies;
    if r.Ok? { TiedChain(r.value, s.value, t.value); }
  }

  /** Reading two timelines that agree up to ties fails for both, or leaves them agreeing up to ties. */
  lemma {:induction false} DrainTied(cfg: Config, c: Core, d: Core, floor: int, now: int)
    requires DelaysOk(cfg) && SoundQueue(c, floor) && SameButTies(c, d)
    ensures c.history != [] && d.history != [] && SameOutcome(Drain(cfg, c, now), Drain(cfg, d, now))
    decreases Weight(c), 3, 0
  {
    HasHistory(c, floor);
    hide Drain, SoundQueue, SameBeside, ConnectedIn;
    SameViewBeside(c, d);
    if c.queue == [] || c.queue[0].at > now {
      NothingDue(cfg, c, d, now);
    } else {
      var n: nat :| ConnectedIn(c.orders, PlainQueue(c.queue), PlainQueue(d.queue), n);
      DrainLinked(cfg, c, d, n, floor, now);
    }
  }
}
