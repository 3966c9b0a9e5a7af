/** What one event does, as a value: two events due at one instant that have nothing to do with each other do the same
    in either order, or fail in either order. */
module SimulatorEffects {
  import opened Common
  import opened SimulatorModel
  import opened SimulatorOrders
  import opened SimulatorPolling
  import opened SimulatorTimeline
  import opened SimulatorSwaps
  import opened SimulatorViews

  /** One order, one parked fill, one movement of cash and a holding, entries in the fee books,
    one reported activity. */
  datatype Effect = Effect(
    change: Option<(nat, Order)>, shelf: Option<(Instrument, Waiting)>, move: Move, entries: seq<Entry>,
    reported: multiset<Activity>)

  const NOTHING := Effect(None, None, Stay, [], multiset{})

  // ---- the effect of one event ----

  function FeeEffect(at: int, row: Row, cash: real, coin: Option<(string, real)>, entries: seq<Entry>): Effect {
    Effect(None, None, Fee(cash, coin), entries, multiset{Activity(0, at, at, PlainRow(row))})
  }

  function PostEffect(fees: Fees, batches: map<BatchKey, Batch>, at: int, key: BatchKey): Option<Effect> {
    if key !in batches then None
    else
      var amount := fees.rates.cents(batches[key].amount);
      Some(if amount <= 0.0 then NOTHING.(entries := [Settle(key)])
           else FeeEffect(at, BatchRow(key, -amount), -amount, None, [Settle(key)]))
  }

  function WaitEffect(quotes: map<Instrument, seq<Quote>>, k: Instrument, at: int, e: Event): Effect {
    var later := Later(SeriesOf(quotes, k), at);
    if later != [] then NOTHING.(entries := [Queue(Timed(later[0].at, e))])
      else NOTHING.(shelf := Some((k, Waiting(at, e))))
  }

  function Owing(charges: seq<Charge>): seq<Entry> {
    if charges == [] then [] else [Owe(charges[0])] + Owing(charges[1..])
  }

  function FeeEntries(cfg: Config, o: Order, at: int, qty: real, price: real): seq<Entry> {
    if cfg.fees.None? then []
    else
      var own := OwnFee(cfg, o, at, qty, price, 0);
      (if own.None? then [] else [Queue(PlainTimed(own.value))]) + Owing(Charges(cfg, o, at, qty, price))
  }

  function TakeEffect(cfg: Config, o: Order, id: nat, at: int, scripted: real, price: real): Effect {
    var qty, done := scripted + o.overfill, WithFill(o, at, scripted, price);
    var row := FillRow(id, o.side, o.instrument.symbol, qty, price, done.filledQty, done.Remaining(), done.status);
    Effect(Some((id, done)), None, Trade(done, qty, price), FeeEntries(cfg, done, at, qty, price),
           multiset{Activity(0, at + cfg.activityLag, at, row)})
  }

  function FillEffect(cfg: Config, quotes: map<Instrument, seq<Quote>>, o: Order, at: int, e: Event): Option<Effect>
    requires e.Fill?
  {
    if IsTerminal(o.status) then Some(NOTHING)
    else match PlanFill(quotes, o, at, e)
      case Wait => Some(WaitEffect(quotes, o.instrument, at, e))
      case Refuse(_) => None
      case Take(scripted, price) => Some(TakeEffect(cfg, o, e.orderId, at, scripted, price))
  }

  /** None when the event breaks the script whatever the cash and the holdings are. */
  function EffectOf(cfg: Config, v: View, at: int, e: Event): Option<Effect> {
    if !Loose(v.orders, e) then None
    else if e.Fill? then FillEffect(cfg, v.quotes, v.orders[e.orderId], at, e)
    else if cfg.fees.None? then None
    else if e.PostRow? then Some(FeeEffect(at, SingleFeeRow(e.row), e.row.cashDelta, e.row.coinDelta, []))
    else PostEffect(cfg.fees.value, v.batches, at, e.key)
  }

  // ---- performing an effect ----

  function Changed(orders: seq<Order>, change: Option<(nat, Order)>): seq<Order> {
    if change.Some? && change.value.0 < |orders| then orders[change.value.0 := change.value.1] else orders
  }

  function Shelved(parked: map<Instrument, seq<Waiting>>, shelf: Option<(Instrument, Waiting)>)
    : map<Instrument, seq<Waiting>>
  {
    if shelf.None? then parked else parked[shelf.value.0 := ParkedOn(parked, shelf.value.0) + [shelf.value.1]]
  }

  function BooksOf(v: View): Books { Books(v.batches, v.queued) }

  function Kept(v: View, fx: Effect, history: seq<State>, books: Books): View {
    v.(history := history, orders := Changed(v.orders, fx.change), parked := Shelved(v.parked, fx.shelf),
       batches := books.batches, queued := books.queued, activities := v.activities + fx.reported,
       draws := v.draws + |fx.reported|)
  }

  function Perform(cfg: Config, v: View, at: int, fx: Effect): (r: Option<View>)
    requires v.history != []
    ensures r.Some? ==> r.value.history != []
  {
    var history, books := BookMove(v.history, at, fx.move), EnterAll(cfg, at, BooksOf(v), fx.entries);
    if history.None? || books.None? then None else Some(Kept(v, fx, history.value, books.value))
  }

  function After(cfg: Config, v: View, at: int, e: Event): (r: Option<View>)
    requires v.history != []
    ensures r.Some? ==> r.value.history != []
  {
    var fx := EffectOf(cfg, v, at, e);
    if fx.None? then None else Perform(cfg, v, at, fx.value)
  }

  // ---- an event has its effect ----

  /** The timeline's own step, on views: the same failure or the same result. */
  ghost predicate Alike(r: Outcome, v: Option<View>) {
    && (r.Ok? <==> v.Some?)
    && (r.Ok? ==> ViewOf(r.value) == v.value)
  }

  lemma {:induction false} AccruesAsEntries(cfg: Config, c: Core, at: int, charges: seq<Charge>)
    requires cfg.fees.Some?
    ensures var r, s := AccrueAll(cfg, c, at, charges), EnterAll(cfg, at, BooksOf(ViewOf(c)), Owing(charges));
            && (r.Ok? <==> s.Some?)
            && (r.Ok? ==> && BooksOf(ViewOf(r.value)) == s.value
                          && r.value == c.(queue := r.value.queue, batches := r.value.batches))
    decreases |charges|
  {
    if charges != [] {
      hide Insert, PlainQueue, PostsAt, PlainActivities;
      var x := charges[0];
      assert Owing(charges)[0] == Owe(x) && Owing(charges)[1..] == Owing(charges[1..]);
      AccrueAsCharge(cfg, c, at, x);
      var r := Accrue(c, at, x.key, PostsAt(cfg, x.key), x.amount, x.proceeds, x.units);
      if r.Ok? { AccruesAsEntries(cfg, r.value, at, charges[1..]); }
    }
  }

  function QueuedFor(cfg: Config, c: Core, key: BatchKey): seq<Timed>
    requires cfg.fees.Some?
  {
    if key in c.batches then c.queue else Insert(c.queue, PostsAt(cfg, key), PostBatch(key))
  }

  lemma AccrueIs(cfg: Config, c: Core, at: int, x: Charge)
    requires cfg.fees.Some?
    ensures var r, b := Accrue(c, at, x.key, PostsAt(cfg, x.key), x.amount, x.proceeds, x.units),
            BatchFor(cfg, c.batches, x.key);
            && (r.Err? <==> b.posted || at >= b.createdAt)
            && (r.Ok? ==>
                  r.value == c.(batches := c.batches[x.key := WithCharge(b, x)], queue := QueuedFor(cfg, c, x.key)))
  {
    hide Insert, PostsAt;
    var b := BatchFor(cfg, c.batches, x.key);
    assert c.batches[x.key := b][x.key := WithCharge(b, x)] == c.batches[x.key := WithCharge(b, x)];
  }

  lemma QueuedPosting(cfg: Config, c: Core, key: BatchKey)
    requires cfg.fees.Some?
    ensures multiset(PlainQueue(QueuedFor(cfg, c, key)))
            == multiset(PlainQueue(c.queue)) + PostingFor(cfg, c.batches, key)
  {
    hide Insert, PlainQueue, PostsAt;
    QueuedInsert(c.queue, PostsAt(cfg, key), PostBatch(key));
  }

  lemma AccrueAsCharge(cfg: Config, c: Core, at: int, x: Charge)
    requires cfg.fees.Some?
    ensures var r := Accrue(c, at, x.key, PostsAt(cfg, x.key), x.amount, x.proceeds, x.units);
            var s := ChargeOne(cfg, at, BooksOf(ViewOf(c)), x);
            && (r.Ok? <==> s.Some?)
            && (r.Ok? ==> && BooksOf(ViewOf(r.value)) == s.value
                          && r.value == c.(queue := r.value.queue, batches := r.value.batches))
  {
    hide Accrue, BatchFor, PostingFor, QueuedFor, PlainQueue, PostsAt, PlainActivities, WithCharge;
    AccrueIs(cfg, c, at, x);
    QueuedPosting(cfg, c, x.key);
  }

  lemma PlainOwnFee(cfg: Config, o: Order, at: int, qty: real, price: real, suffix: nat)
    requires cfg.fees.Some?
    ensures var own, plain := OwnFee(cfg, o, at, qty, price, suffix), OwnFee(cfg, o, at, qty, price, 0);
            (own.Some? <==> plain.Some?) && (own.Some? ==> PlainTimed(own.value) == PlainTimed(plain.value))
  {
  }

  lemma {:induction false} FeesAsEntries(cfg: Config, c: Core, o: Order, at: int, qty: real, price: real, suffix: nat)
    ensures var r := AccrueFees(cfg, c, o, at, qty, price, suffix);
            var s := EnterAll(cfg, at, BooksOf(ViewOf(c)), FeeEntries(cfg, o, at, qty, price));
            && (r.Ok? <==> s.Some?)
            && (r.Ok? ==> && BooksOf(ViewOf(r.value)) == s.value
                          && r.value == c.(queue := r.value.queue, batches := r.value.batches))
  {
    hide Insert, PlainQueue, OwnFee, Charges, AccrueAll, Enter, PlainActivities, Owing;
    if cfg.fees.Some? {
      var own := OwnFee(cfg, o, at, qty, price, suffix);
      PlainOwnFee(cfg, o, at, qty, price, suffix);
      var charges := Charges(cfg, o, at, qty, price);
      if own.None? {
        assert FeeEntries(cfg, o, at, qty, price) == Owing(charges);
        AccruesAsEntries(cfg, c, at, charges);
      } else {
        var queued := Push(c, own.value.at, own.value.event);
        QueuedInsert(c.queue, own.value.at, own.value.event);
        AccruesAsEntries(cfg, queued, at, charges);
        EnterQueued(cfg, at, BooksOf(ViewOf(c)), PlainTimed(own.value), Owing(charges));
      }
    }
  }

  lemma {:induction false} EnterQueued(cfg: Config, at: int, s: Books, t: Timed, entries: seq<Entry>)
    ensures EnterAll(cfg, at, s, [Queue(t)] + entries)
            == EnterAll(cfg, at, s.(queued := s.queued + multiset{t}), entries)
  {
    assert ([Queue(t)] + entries)[1..] == entries;
  }

  lemma TradeAsMove(history: seq<State>, o: Order, at: int, qty: real, price: real)
    requires history != []
    ensures var r, m := BookFill(history, o, at, qty, price), BookMove(history, at, Trade(o, qty, price));
            (r.Ok? <==> m.Some?) && (r.Ok? ==> r.value == m.value)
  {
    hide HoldingsAfterFill, StateAt, Record, Cost;
  }

  lemma FeeAsMove(history: seq<State>, at: int, cash: real, coin: Option<(string, real)>)
    requires history != []
    ensures var r, m := BookFee(history, at, cash, coin), BookMove(history, at, Fee(cash, coin));
            (r.Ok? <==> m.Some?) && (r.Ok? ==> r.value == m.value)
  {
    hide StateAt, Record;
  }

  lemma TakeAlike(cfg: Config, c: Core, id: nat, at: int, scripted: real, price: real)
    requires c.history != [] && id < |c.orders|
    ensures Alike(Execute(cfg, c, id, at, scripted, price),
                  Perform(cfg, ViewOf(c), at, TakeEffect(cfg, c.orders[id], id, at, scripted, price)))
  {
    hide WithFill, BookFill, BookMove, AccrueFees, EnterAll, FeeEntries, PlainQueue, PlainActivities;
    var o := c.orders[id];
    var qty, done := scripted + o.overfill, WithFill(o, at, scripted, price);
    var executed := Executed(cfg, c, id, at, scripted, price);
    var a := executed.activities[|c.activities|];
    MoreActivities(c.activities, a);
    TradeAsMove(c.history, done, at, qty, price);
    var booked := BookFill(c.history, done, at, qty, price);
    if booked.Ok? { FeesAsEntries(cfg, executed.(history := booked.value), done, at, qty, price, c.draws); }
  }

  lemma ChargedAlike(cfg: Config, c: Core, at: int, row: Row, cash: real, coin: Option<(string, real)>)
    requires c.history != []
    ensures Alike(SimulatorModel.Charged(c, at, row, cash, coin),
            Perform(cfg, ViewOf(c), at, FeeEffect(at, row, cash, coin, [])))
  {
    hide BookFee, BookMove, PlainQueue, PlainActivities;
    FeeAsMove(c.history, at, cash, coin);
    MoreActivities(c.activities, Activity(c.draws, at, at, row));
  }

  /** A posted batch is settled before its fee moves cash. */
  lemma SettledFirst(cfg: Config, v: View, at: int, key: BatchKey, fx: Effect)
    requires v.history != [] && key in v.batches && fx.entries == []
    ensures Perform(cfg, v, at, fx.(entries := [Settle(key)]))
         == Perform(cfg, v.(batches := Settled(v.batches, key)), at, fx)
  {
    hide BookMove, Settled, Changed, Shelved;
    var s := BooksOf(v);
    assert [Settle(key)][1..] == [];
    assert EnterAll(cfg, at, s, [Settle(key)]) == Some(s.(batches := Settled(v.batches, key)));
  }

  lemma PostAlike(cfg: Config, c: Core, at: int, e: Event)
    requires c.history != [] && (e.PostBatch? || e.PostRow?)
    ensures Alike(Apply(cfg, c, at, e), After(cfg, ViewOf(c), at, Plain(e)))
  {
    hide SimulatorModel.Charged, Perform, PlainQueue, PlainActivities, Settled;
    if cfg.fees.Some? && e.PostRow? {
      ChargedAlike(cfg, c, at, SingleFeeRow(e.row), e.row.cashDelta, e.row.coinDelta);
    } else if cfg.fees.Some? && e.key in c.batches {
      PostBatchAlike(cfg, c, at, e.key);
    }
  }

  lemma PostBatchAlike(cfg: Config, c: Core, at: int, key: BatchKey)
    requires c.history != [] && cfg.fees.Some? && key in c.batches
    ensures Alike(ApplyFee(cfg, c, at, PostBatch(key)), After(cfg, ViewOf(c), at, PostBatch(key)))
  {
    hide SimulatorModel.Charged, Perform, PlainQueue, PlainActivities;
    var v, posted := ViewOf(c), c.(batches := Settled(c.batches, key));
    var amount := cfg.fees.value.rates.cents(c.batches[key].amount);
    assert ViewOf(posted) == v.(batches := Settled(v.batches, key));
    if amount <= 0.0 {
      SettledFirst(cfg, v, at, key, NOTHING);
      NothingIsDone(cfg, ViewOf(posted), at);
    } else {
      SettledFirst(cfg, v, at, key, FeeEffect(at, BatchRow(key, -amount), -amount, None, []));
      ChargedAlike(cfg, posted, at, BatchRow(key, -amount), -amount, None);
    }
  }

  lemma NothingIsDone(cfg: Config, v: View, at: int)
    requires v.history != []
    ensures Perform(cfg, v, at, NOTHING) == Some(v)
  {
    assert v.activities + multiset{} == v.activities;
  }

  lemma ParkAlike(cfg: Config, v: View, at: int, k: Instrument, w: Waiting)
    requires v.history != []
    ensures Perform(cfg, v, at, NOTHING.(shelf := Some((k, w))))
            == Some(v.(parked := v.parked[k := ParkedOn(v.parked, k) + [w]]))
  {
    assert v.activities + multiset{} == v.activities;
  }

  lemma QueueAlike(cfg: Config, v: View, at: int, t: Timed)
    requires v.history != []
    ensures Perform(cfg, v, at, NOTHING.(entries := [Queue(t)])) == Some(v.(queued := v.queued + multiset{t}))
  {
    assert v.activities + multiset{} == v.activities;
    assert [Queue(t)] == [Queue(t)] + [];
    EnterQueued(cfg, at, BooksOf(v), t, []);
  }

  lemma WaitAlike(cfg: Config, c: Core, k: Instrument, at: int, e: Event)
    requires c.history != [] && e.Fill?
    ensures Alike(Ok(Rearm(c, k, at, e)), Perform(cfg, ViewOf(c), at, WaitEffect(c.quotes, k, at, e)))
  {
    hide Insert, PlainQueue, PlainActivities, Later, Perform;
    var later := Later(SeriesOf(c.quotes, k), at);
    if later != [] {
      QueuedInsert(c.queue, later[0].at, e);
      QueueAlike(cfg, ViewOf(c), at, Timed(later[0].at, e));
    } else {
      ParkAlike(cfg, ViewOf(c), at, k, Waiting(at, e));
    }
  }

  lemma FillAlike(cfg: Config, c: Core, at: int, e: Event)
    requires c.history != [] && e.Fill? && e.orderId < |c.orders| && Loose(c.orders, e)
    ensures Alike(Apply(cfg, c, at, e), After(cfg, ViewOf(c), at, e))
  {
    hide PlanFill, Execute, TakeEffect, Rearm, WaitEffect, Perform, PlainQueue, PlainActivities;
    var o := c.orders[e.orderId];
    NothingIsDone(cfg, ViewOf(c), at);
    var plan := PlanFill(c.quotes, o, at, e);
    match plan
    case Wait => WaitAlike(cfg, c, o.instrument, at, e);
    case Refuse(_) =>
    case Take(scripted, price) => TakeAlike(cfg, c, e.orderId, at, scripted, price);
  }

  lemma EventAlike(cfg: Config, c: Core, at: int, e: Event)
    requires c.history != [] && Loose(c.orders, e)
    ensures Alike(Apply(cfg, c, at, e), After(cfg, ViewOf(c), at, Plain(e)))
  {
    hide Apply, After, ViewOf;
    if e.Fill? { FillAlike(cfg, c, at, e); } else { PostAlike(cfg, c, at, e); }
  }

  // ---- effects of events that have nothing to do with each other ----

  lemma {:induction false} OwingOwes(charges: seq<Charge>)
    ensures forall x :: x in Owing(charges) ==> x.Owe?
  {
    if charges != [] { OwingOwes(charges[1..]); }
  }

  lemma TakeFacts(cfg: Config, o: Order, id: nat, at: int, scripted: real, price: real)
    ensures var fx := TakeEffect(cfg, o, id, at, scripted, price);
            && fx.change.Some? && fx.change.value.0 == id && fx.shelf.None?
            && MovedSymbol(fx.move) == Some(o.instrument.symbol)
            && forall x :: x in fx.entries ==> !x.Settle?
  {
    hide OwnFee, Charges, Owing;
    FillTerms(o, at, scripted, price);
    var done := WithFill(o, at, scripted, price);
    if cfg.fees.Some? { OwingOwes(Charges(cfg, done, at, scripted + o.overfill, price)); }
  }

  /** What an effect can reach. */
  ghost predicate Reaches(orders: seq<Order>, e: Event, fx: Effect) {
    && (fx.change.Some? || fx.shelf.Some? ==> e.Fill? && e.orderId < |orders|)
    && (fx.change.Some? ==> fx.change.value.0 == e.orderId)
    && (fx.shelf.Some? ==> fx.shelf.value.0 == orders[e.orderId].instrument)
    && (MovedSymbol(fx.move).Some? ==> MovedSymbol(fx.move) == Touches(orders, e))
    && (forall x :: x in fx.entries && x.Settle? ==> e == PostBatch(x.key))
  }

  lemma EffectReaches(cfg: Config, v: View, at: int, e: Event)
    ensures var fx := EffectOf(cfg, v, at, e); fx.Some? ==> Reaches(v.orders, e, fx.value)
  {
    hide TakeEffect, Later;
    if e.Fill? && e.orderId < |v.orders| {
      var o := v.orders[e.orderId];
      var plan := PlanFill(v.quotes, o, at, e);
      if plan.Take? { TakeFacts(cfg, o, e.orderId, at, plan.scripted, plan.price); }
    }
  }

  /** A batch posted at the instant is there and closed to later fills. */
  predicate PostDue(batches: map<BatchKey, Batch>, at: int, e: Event) {
    e.PostBatch? ==> e.key in batches && batches[e.key].createdAt <= at
  }

  lemma BatchStays(cfg: Config, v: View, at: int, e: Event, f: Event)
    requires v.history != [] && e != f && f.PostBatch? && PostDue(v.batches, at, f) && After(cfg, v, at, e).Some?
    ensures var next := After(cfg, v, at, e).value; f.key in next.batches && next.batches[f.key] == v.batches[f.key]
  {
    hide EffectOf, BookMove, EnterAll;
    EffectReaches(cfg, v, at, e);
    EnterAllKeepsDue(cfg, at, BooksOf(v), EffectOf(cfg, v, at, e).value.entries, f.key);
  }

  lemma OrderStays(cfg: Config, v: View, at: int, e: Event, f: Event)
    requires v.history != [] && Apart(v.orders, e, f) && After(cfg, v, at, e).Some?
    ensures var next := After(cfg, v, at, e).value;
            && next.quotes == v.quotes && |next.orders| == |v.orders|
            && (f.Fill? ==> next.orders[f.orderId] == v.orders[f.orderId])
  {
    hide EffectOf, BookMove, EnterAll;
    EffectReaches(cfg, v, at, e);
  }

  /** One event does not change what the other does. */
  lemma EffectStays(cfg: Config, v: View, at: int, e: Event, f: Event)
    requires v.history != [] && Apart(v.orders, e, f) && e != f && PostDue(v.batches, at, f)
    requires After(cfg, v, at, e).Some?
    ensures EffectOf(cfg, After(cfg, v, at, e).value, at, f) == EffectOf(cfg, v, at, f)
  {
    hide After, FillEffect;
    OrderStays(cfg, v, at, e, f);
    if f.PostBatch? { BatchStays(cfg, v, at, e, f); }
  }

  predicate Separate(a: Effect, b: Effect) {
    && !(a.change.Some? && b.change.Some? && a.change.value.0 == b.change.value.0)
    && !(a.shelf.Some? && b.shelf.Some? && a.shelf.value.0 == b.shelf.value.0)
    && Disjoint(a.move, b.move)
  }

  function PerformTwice(cfg: Config, v: View, at: int, a: Effect, b: Effect): Option<View>
    requires v.history != []
  {
    var first := Perform(cfg, v, at, a);
    if first.None? then None else Perform(cfg, first.value, at, b)
  }

  lemma {:induction false} PerformTwiceIs(cfg: Config, v: View, at: int, a: Effect, b: Effect)
    requires v.history != []
    ensures var history := BookTwice(v.history, at, a.move, b.move);
            var books := ThenAll(cfg, at, EnterAll(cfg, at, BooksOf(v), a.entries), b.entries);
            PerformTwice(cfg, v, at, a, b)
            == if history.None? || books.None? then None
               else Some(Kept(Kept(v, a, v.history, BooksOf(v)), b, history.value, books.value))
  {
    hide BookMove, EnterAll, Changed, Shelved;
  }

  lemma ChangesCommute(orders: seq<Order>, a: Option<(nat, Order)>, b: Option<(nat, Order)>)
    requires !(a.Some? && b.Some? && a.value.0 == b.value.0)
    ensures Changed(Changed(orders, a), b) == Changed(Changed(orders, b), a)
  {
  }

  lemma ShelvesCommute(parked: map<Instrument, seq<Waiting>>, a: Option<(Instrument, Waiting)>,
                       b: Option<(Instrument, Waiting)>)
    requires !(a.Some? && b.Some? && a.value.0 == b.value.0)
    ensures Shelved(Shelved(parked, a), b) == Shelved(Shelved(parked, b), a)
  {
    if a.Some? && b.Some? {
      var (k, w) := a.value;
      var (other, x) := b.value;
      var p, q := ParkedOn(parked, k) + [w], ParkedOn(parked, other) + [x];
      assert parked[k := p][other := q] == parked[other := q][k := p];
    }
  }

  lemma EffectsCommute(cfg: Config, v: View, at: int, a: Effect, b: Effect)
    requires v.history != [] && HistoryRising(v.history) && LastAt(v.history) <= at && Separate(a, b)
    requires AllDue(v.batches, at, a.entries) && AllDue(v.batches, at, b.entries)
    ensures PerformTwice(cfg, v, at, a, b) == PerformTwice(cfg, v, at, b, a)
  {
    hide BookTwice, EnterAll, ThenAll, PerformTwice, Changed, Shelved, Disjoint, HistoryRising;
    PerformTwiceIs(cfg, v, at, a, b);
    PerformTwiceIs(cfg, v, at, b, a);
    MovesCommute(v.history, at, a.move, b.move);
    AllEntriesCommute(cfg, at, BooksOf(v), a.entries, b.entries);
    ChangesCommute(v.orders, a.change, b.change);
    ShelvesCommute(v.parked, a.shelf, b.shelf);
    assert v.activities + a.reported + b.reported == v.activities + b.reported + a.reported;
  }

  lemma ApartSeparate(orders: seq<Order>, e: Event, f: Event, a: Effect, b: Effect)
    requires Apart(orders, e, f) && Reaches(orders, e, a) && Reaches(orders, f, b)
    ensures Separate(a, b)
  {
  }

  function AfterTwice(cfg: Config, v: View, at: int, e: Event, f: Event): Option<View>
    requires v.history != []
  {
    var first := After(cfg, v, at, e);
    if first.None? then None else After(cfg, first.value, at, f)
  }

  lemma AfterBoth(cfg: Config, v: View, at: int, e: Event, f: Event)
    requires v.history != [] && Apart(v.orders, e, f) && e != f && PostDue(v.batches, at, f)
    ensures var a, b := EffectOf(cfg, v, at, e), EffectOf(cfg, v, at, f);
            AfterTwice(cfg, v, at, e, f)
            == if a.None? || b.None? then None else PerformTwice(cfg, v, at, a.value, b.value)
  {
    hide EffectOf, Perform, Apart;
    if After(cfg, v, at, e).Some? { EffectStays(cfg, v, at, e, f); }
  }

  lemma DueEntries(cfg: Config, v: View, at: int, e: Event)
    requires PostDue(v.batches, at, e)
    ensures var fx := EffectOf(cfg, v, at, e); fx.Some? ==> AllDue(v.batches, at, fx.value.entries)
  {
    hide EffectOf;
    EffectReaches(cfg, v, at, e);
  }

  /** Two events due at one instant that have nothing to do with each other, on different symbols or only one of them
      moving a position: in either order both happen, with the same result, or one of them breaks the script. */
  lemma EventsCommute(cfg: Config, v: View, at: int, e: Event, f: Event)
    requires v.history != [] && HistoryRising(v.history) && LastAt(v.history) <= at && Apart(v.orders, e, f)
    requires PostDue(v.batches, at, e) && PostDue(v.batches, at, f)
    ensures AfterTwice(cfg, v, at, e, f) == AfterTwice(cfg, v, at, f, e)
  {
    hide AfterTwice, PerformTwice, EffectOf, HistoryRising, PostDue, AllDue, Separate, Apart;
    if e != f {
      AfterBoth(cfg, v, at, e, f);
      StillApartOtherWay(v.orders, e, f);
      AfterBoth(cfg, v, at, f, e);
      var a, b := EffectOf(cfg, v, at, e), EffectOf(cfg, v, at, f);
      if a.Some? && b.Some? {
        EffectReaches(cfg, v, at, e);
        EffectReaches(cfg, v, at, f);
        ApartSeparate(v.orders, e, f, a.value, b.value);
        DueEntries(cfg, v, at, e);
        DueEntries(cfg, v, at, f);
        EffectsCommute(cfg, v, at, a.value, b.value);
      }
    }
  }

  lemma StillApartOtherWay(orders: seq<Order>, e: Event, f: Event)
    requires Apart(orders, e, f)
    ensures Apart(orders, f, e)
  {
  }
}
