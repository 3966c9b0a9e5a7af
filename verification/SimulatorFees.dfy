/** Batched fees: every charge a fill makes is accrued into exactly one batch; a batch has one posting event until it is
    posted, is posted once at the rounded sum of its charges, and never accrues again. */
module SimulatorFees {
  import opened Common
  import opened TradingSession
  import opened SimulatorModel
  import opened SimulatorCommands
  import opened SimulatorOrders
  import opened SimulatorTimeline
  import opened SimulatorLedger

  // ---- what the fills owe to a batch ----

  function AmountTo(charges: seq<Charge>, k: BatchKey): real {
    if charges == [] then 0.0 else (if charges[0].key == k then charges[0].amount else 0.0) + AmountTo(charges[1..], k)
  }

  function TradesTo(charges: seq<Charge>, k: BatchKey): nat {
    if charges == [] then 0 else (if charges[0].key == k then 1 else 0) + TradesTo(charges[1..], k)
  }

  function ChargesOf(cfg: Config, orders: seq<Order>, a: Activity): seq<Charge>
    requires cfg.fees.Some?
  {
    if a.row.FillRow? && a.row.orderId < |orders|
    then Charges(cfg, orders[a.row.orderId], a.sortTime, a.row.qty, a.row.price) else []
  }

  function Owed(cfg: Config, orders: seq<Order>, activities: seq<Activity>, k: BatchKey): real
    requires cfg.fees.Some?
    decreases |activities|
  {
    if activities == [] then 0.0
    else Owed(cfg, orders, activities[..|activities| - 1], k)
         + AmountTo(ChargesOf(cfg, orders, activities[|activities| - 1]), k)
  }

  function Owing(cfg: Config, orders: seq<Order>, activities: seq<Activity>, k: BatchKey): nat
    requires cfg.fees.Some?
    decreases |activities|
  {
    if activities == [] then 0
    else Owing(cfg, orders, activities[..|activities| - 1], k)
         + TradesTo(ChargesOf(cfg, orders, activities[|activities| - 1]), k)
  }

  // ---- what the batches hold, what is queued, and what was posted ----

  function AmountIn(batches: map<BatchKey, Batch>, k: BatchKey): real {
    if k in batches then batches[k].amount else 0.0
  }

  function TradesIn(batches: map<BatchKey, Batch>, k: BatchKey): nat {
    if k in batches then batches[k].trades else 0
  }

  function PostingsQueued(queue: seq<Timed>, k: BatchKey): nat {
    if queue == [] then 0 else (if queue[0].event == PostBatch(k) then 1 else 0) + PostingsQueued(queue[1..], k)
  }

  /** The net amounts of the activities the batch posted. */
  function PostedRows(activities: seq<Activity>, k: BatchKey): seq<real>
    decreases |activities|
  {
    if activities == [] then []
    else
      var last := activities[|activities| - 1];
      PostedRows(activities[..|activities| - 1], k)
      + (if last.row.BatchRow? && last.row.key == k then [last.row.netAmount] else [])
  }

  /** A posted batch that rounds to something has one activity, for exactly its rounded amount. */
  function ExpectedRows(cfg: Config, batches: map<BatchKey, Batch>, k: BatchKey): seq<real>
    requires cfg.fees.Some?
  {
    if k in batches && batches[k].posted && cfg.fees.value.rates.cents(batches[k].amount) > 0.0
    then [-cfg.fees.value.rates.cents(batches[k].amount)] else []
  }

  /** The fee books balance, with the charges in `pending` executed but not yet accrued. */
  ghost predicate Accounted(cfg: Config, c: Core, pending: seq<Charge>)
    requires cfg.fees.Some?
  {
    && (forall k :: AmountIn(c.batches, k) + AmountTo(pending, k) == Owed(cfg, c.orders, c.activities, k))
    && (forall k :: TradesIn(c.batches, k) + TradesTo(pending, k) == Owing(cfg, c.orders, c.activities, k))
    && (forall k :: PostingsQueued(c.queue, k) == if k in c.batches && !c.batches[k].posted then 1 else 0)
    && (forall k :: PostedRows(c.activities, k) == ExpectedRows(cfg, c.batches, k))
  }

  ghost predicate FeesBalanced(cfg: Config, c: Core) {
    SaneRows(c.activities, |c.orders|) && (cfg.fees.Some? ==> Accounted(cfg, c, []))
  }

  // ---- lemmas about the sums ----

  lemma {:induction false} InsertPostings(queue: seq<Timed>, at: int, event: Event, k: BatchKey)
    ensures PostingsQueued(Insert(queue, at, event), k)
         == PostingsQueued(queue, k) + (if event == PostBatch(k) then 1 else 0)
  {
    if queue == [] || at < queue[0].at {
      assert ([Timed(at, event)] + queue)[1..] == queue;
    } else {
      InsertPostings(queue[1..], at, event, k);
      assert ([queue[0]] + Insert(queue[1..], at, event))[1..] == Insert(queue[1..], at, event);
    }
  }

  lemma {:induction false} AppendRow(cfg: Config, orders: seq<Order>, activities: seq<Activity>, a: Activity,
                                     k: BatchKey)
    requires cfg.fees.Some?
    ensures Owed(cfg, orders, activities + [a], k)
         == Owed(cfg, orders, activities, k) + AmountTo(ChargesOf(cfg, orders, a), k)
    ensures Owing(cfg, orders, activities + [a], k)
         == Owing(cfg, orders, activities, k) + TradesTo(ChargesOf(cfg, orders, a), k)
    ensures PostedRows(activities + [a], k)
         == PostedRows(activities, k) + (if a.row.BatchRow? && a.row.key == k then [a.row.netAmount] else [])
  {
    assert (activities + [a])[..|activities|] == activities;
  }

  lemma {:induction false} SameTermsSameFees(cfg: Config, before: seq<Order>, after: seq<Order>,
                                             activities: seq<Activity>, k: BatchKey)
    requires cfg.fees.Some? && SameTerms(before, after) && SaneRows(activities, |before|)
    ensures Owed(cfg, after, activities, k) == Owed(cfg, before, activities, k)
    ensures Owing(cfg, after, activities, k) == Owing(cfg, before, activities, k)
    decreases |activities|
  {
    if activities != [] {
      var last := activities[|activities| - 1];
      assert last in activities;
      assert ChargesOf(cfg, after, last) == ChargesOf(cfg, before, last);
      SameTermsSameFees(cfg, before, after, activities[..|activities| - 1], k);
    }
  }

  /** Changes to neither batches, activities nor queued postings keep the fee books. */
  lemma FeesUntouched(cfg: Config, c: Core, d: Core)
    requires FeesBalanced(cfg, c) && SameTerms(c.orders, d.orders)
    requires d.batches == c.batches && d.activities == c.activities
    requires forall k :: PostingsQueued(d.queue, k) == PostingsQueued(c.queue, k)
    ensures FeesBalanced(cfg, d)
  {
    if cfg.fees.Some? {
      forall k
        ensures Owed(cfg, d.orders, d.activities, k) == Owed(cfg, c.orders, c.activities, k)
        ensures Owing(cfg, d.orders, d.activities, k) == Owing(cfg, c.orders, c.activities, k)
      {
        SameTermsSameFees(cfg, c.orders, d.orders, c.activities, k);
      }
    }
  }

  // ---- accrual ----

  lemma AccrueAccounted(cfg: Config, c: Core, at: int, pending: seq<Charge>)
    requires cfg.fees.Some? && pending != [] && Accounted(cfg, c, pending)
    ensures var x := pending[0];
            var r := Accrue(c, at, x.key, PostsAt(cfg, x.key), x.amount, x.proceeds, x.units);
            && (r.Ok? ==> Accounted(cfg, r.value, pending[1..]))
            && (x.key in c.batches && c.batches[x.key].posted ==> r.Err?)
  {
    hide Insert, PostedRows, Owed, Owing, PostingsQueued;
    var x := pending[0];
    var r := Accrue(c, at, x.key, PostsAt(cfg, x.key), x.amount, x.proceeds, x.units);
    if r.Ok? {
      forall k
        ensures PostingsQueued(r.value.queue, k) == if k in r.value.batches && !r.value.batches[k].posted then 1 else 0
        ensures PostedRows(r.value.activities, k) == ExpectedRows(cfg, r.value.batches, k)
        ensures AmountIn(r.value.batches, k) + AmountTo(pending[1..], k) == Owed(cfg, c.orders, c.activities, k)
        ensures TradesIn(r.value.batches, k) + TradesTo(pending[1..], k) == Owing(cfg, c.orders, c.activities, k)
      {
        InsertPostings(c.queue, PostsAt(cfg, x.key), PostBatch(x.key), k);
        assert AmountIn(c.batches, k) + AmountTo(pending, k) == Owed(cfg, c.orders, c.activities, k);
        assert TradesIn(c.batches, k) + TradesTo(pending, k) == Owing(cfg, c.orders, c.activities, k);
        assert PostedRows(c.activities, k) == ExpectedRows(cfg, c.batches, k);
      }
    }
  }

  lemma {:induction false} AccrueAllAccounted(cfg: Config, c: Core, at: int, pending: seq<Charge>)
    requires cfg.fees.Some? && Accounted(cfg, c, pending)
    ensures var r := AccrueAll(cfg, c, at, pending); r.Ok? ==> Accounted(cfg, r.value, [])
    decreases |pending|
  {
    hide Accounted, Accrue;
    if pending == [] {
      assert pending == [];
    } else {
      var x := pending[0];
      AccrueAccounted(cfg, c, at, pending);
      var r := Accrue(c, at, x.key, PostsAt(cfg, x.key), x.amount, x.proceeds, x.units);
      if r.Ok? { AccrueAllAccounted(cfg, r.value, at, pending[1..]); }
    }
  }

  lemma ExecuteFees(cfg: Config, c: Core, id: nat, at: int, scripted: real, price: real)
    requires c.history != [] && id < |c.orders| && FeesBalanced(cfg, c)
    ensures var r := Execute(cfg, c, id, at, scripted, price); r.Ok? ==> FeesBalanced(cfg, r.value)
  {
    hide Accounted, AccrueAll, BookFill, OwnFee, Charges, WithFill;
    var executed := Executed(cfg, c, id, at, scripted, price);
    var o := executed.orders[id];
    var qty := scripted + c.orders[id].overfill;
    var booked := BookFill(c.history, o, at, qty, price);
    if booked.Ok? {
      var paid := executed.(history := booked.value);
      if cfg.fees.Some? {
        var own := OwnFee(cfg, o, at, qty, price, c.draws);
        var queued := if own.Some? then Push(paid, own.value.at, own.value.event) else paid;
        ExecutedAccounted(cfg, c, id, at, scripted, price, queued);
        AccrueAllAccounted(cfg, queued, at, Charges(cfg, o, at, qty, price));
        AccrueAllWeight(cfg, queued, at, Charges(cfg, o, at, qty, price));
      }
    }
  }

  /** The books for one batch after an order's fill is in the feed: its charges are pending, nothing else moved. */
  lemma {:induction false} FilledBooks(cfg: Config, c: Core, orders: seq<Order>, a: Activity, k: BatchKey)
    requires cfg.fees.Some? && FeesBalanced(cfg, c) && SameTerms(c.orders, orders) && !a.row.BatchRow?
    ensures AmountIn(c.batches, k) + AmountTo(ChargesOf(cfg, orders, a), k) == Owed(cfg, orders, c.activities + [a], k)
    ensures TradesIn(c.batches, k) + TradesTo(ChargesOf(cfg, orders, a), k) == Owing(cfg, orders, c.activities + [a], k)
    ensures PostedRows(c.activities + [a], k) == ExpectedRows(cfg, c.batches, k)
    ensures PostingsQueued(c.queue, k) == if k in c.batches && !c.batches[k].posted then 1 else 0
  {
    hide Charges, ChargesOf, Owed, Owing, PostedRows, SameTerms, ExpectedRows, SaneRows, PostingsQueued;
    AppendRow(cfg, orders, c.activities, a, k);
    SameTermsSameFees(cfg, c.orders, orders, c.activities, k);
    assert AmountTo([], k) == 0.0 && TradesTo([], k) == 0;
    assert AmountIn(c.batches, k) + AmountTo([], k) == Owed(cfg, c.orders, c.activities, k);
    assert TradesIn(c.batches, k) + TradesTo([], k) == Owing(cfg, c.orders, c.activities, k);
    assert PostedRows(c.activities, k) == ExpectedRows(cfg, c.batches, k);
  }

  lemma ExecutedAccounted(cfg: Config, c: Core, id: nat, at: int, scripted: real, price: real, queued: Core)
    requires c.history != [] && id < |c.orders| && cfg.fees.Some? && FeesBalanced(cfg, c)
    requires var executed := Executed(cfg, c, id, at, scripted, price);
             var own := OwnFee(cfg, executed.orders[id], at, scripted + c.orders[id].overfill, price, c.draws);
             && queued.orders == executed.orders && queued.activities == executed.activities
                && queued.batches == c.batches
             && queued.queue == if own.Some? then Insert(c.queue, own.value.at, own.value.event) else c.queue
    ensures Accounted(cfg, queued, Charges(cfg, queued.orders[id], at, scripted + c.orders[id].overfill, price))
  {
    TermsOfExecuted(cfg, c, id, at, scripted, price);
    hide Charges, WithFill, OwnFee, Owed, Owing, PostedRows, Insert, SameTerms, FeesBalanced, AmountTo, TradesTo,
      AmountIn, TradesIn, PostingsQueued, ExpectedRows;
    var a := queued.activities[|c.activities|];
    assert queued.activities == c.activities + [a];
    var pending := ChargesOf(cfg, queued.orders, a);
    assert pending == Charges(cfg, queued.orders[id], at, scripted + c.orders[id].overfill, price);
    var own := OwnFee(cfg, queued.orders[id], at, scripted + c.orders[id].overfill, price, c.draws);
    forall k
      ensures AmountIn(queued.batches, k) + AmountTo(pending, k) == Owed(cfg, queued.orders, queued.activities, k)
      ensures TradesIn(queued.batches, k) + TradesTo(pending, k) == Owing(cfg, queued.orders, queued.activities, k)
      ensures PostedRows(queued.activities, k) == ExpectedRows(cfg, queued.batches, k)
      ensures PostingsQueued(queued.queue, k) == if k in queued.batches && !queued.batches[k].posted then 1 else 0
    {
      FilledBooks(cfg, c, queued.orders, a, k);
      if own.Some? { InsertPostings(c.queue, own.value.at, own.value.event, k); }
    }
  }

  lemma TermsOfExecuted(cfg: Config, c: Core, id: nat, at: int, scripted: real, price: real)
    requires id < |c.orders|
    ensures SameTerms(c.orders, Executed(cfg, c, id, at, scripted, price).orders)
  {
  }

  // ---- posting ----

  lemma {:induction false} ChargedFees(cfg: Config, c: Core, at: int, row: Row, cashDelta: real,
                                       coinDelta: Option<(string, real)>, k: BatchKey)
    requires c.history != [] && cfg.fees.Some? && !row.FillRow?
    ensures var r := Charged(c, at, row, cashDelta, coinDelta);
            r.Ok? ==>
              && Owed(cfg, r.value.orders, r.value.activities, k) == Owed(cfg, c.orders, c.activities, k)
              && Owing(cfg, r.value.orders, r.value.activities, k) == Owing(cfg, c.orders, c.activities, k)
              && PostedRows(r.value.activities, k)
                 == PostedRows(c.activities, k) + (if row.BatchRow? && row.key == k then [row.netAmount] else [])
  {
    var a := Activity(c.draws, at, at, row);
    AppendRow(cfg, c.orders, c.activities, a, k);
    assert ChargesOf(cfg, c.orders, a) == [];
  }

  /** One batch marked posted, with its activity if it rounds to something. */
  lemma PostedAccounted(cfg: Config, c: Core, d: Core, a: Activity)
    requires cfg.fees.Some? && Accounted(cfg, c, []) && c.queue != [] && c.queue[0].event.PostBatch?
    requires c.queue[0].event.key in c.batches
    requires var key := c.queue[0].event.key;
             var amount := cfg.fees.value.rates.cents(c.batches[key].amount);
             && d.orders == c.orders && d.queue == c.queue[1..]
             && d.batches == c.batches[key := c.batches[key].(posted := true)]
             && a.row == BatchRow(key, -amount)
             && d.activities == if amount > 0.0 then c.activities + [a] else c.activities
    ensures Accounted(cfg, d, [])
  {
    hide Owed, Owing, PostedRows, ChargesOf;
    var key := c.queue[0].event.key;
    assert PostingsQueued(c.queue, key) >= 1;
    forall k
      ensures Owed(cfg, d.orders, d.activities, k) == Owed(cfg, c.orders, c.activities, k)
      ensures Owing(cfg, d.orders, d.activities, k) == Owing(cfg, c.orders, c.activities, k)
      ensures PostedRows(d.activities, k) == ExpectedRows(cfg, d.batches, k)
      ensures PostingsQueued(d.queue, k) == if k in d.batches && !d.batches[k].posted then 1 else 0
    {
      AppendRow(cfg, c.orders, c.activities, a, k);
      NoCharges(cfg, c.orders, a, k);
      assert PostedRows(c.activities, k) == ExpectedRows(cfg, c.batches, k);
    }
  }

  lemma {:induction false} NoCharges(cfg: Config, orders: seq<Order>, a: Activity, k: BatchKey)
    requires cfg.fees.Some? && !a.row.FillRow?
    ensures AmountTo(ChargesOf(cfg, orders, a), k) == 0.0 && TradesTo(ChargesOf(cfg, orders, a), k) == 0
  {
  }

  /** A due batch has not been posted; posting it charges its rounded sum once and leaves nothing queued for it. */
  lemma PostFees(cfg: Config, c: Core)
    requires c.history != [] && c.queue != [] && c.queue[0].event.PostBatch? && FeesBalanced(cfg, c)
    ensures var r := ApplyFee(cfg, Popped(c), c.queue[0].at, c.queue[0].event); r.Ok? ==> FeesBalanced(cfg, r.value)
  {
    hide Charged, Accounted;
    var at, event := c.queue[0].at, c.queue[0].event;
    var r := ApplyFee(cfg, Popped(c), at, event);
    if r.Ok? {
      var amount := cfg.fees.value.rates.cents(c.batches[event.key].amount);
      var posted := Popped(c).(batches := c.batches[event.key := c.batches[event.key].(posted := true)]);
      ChargedFrame(posted, at, BatchRow(event.key, -amount), -amount, None);
      PostedAccounted(cfg, c, r.value, Activity(c.draws, at, at, BatchRow(event.key, -amount)));
    }
  }

  lemma ChargedFrame(c: Core, at: int, row: Row, cashDelta: real, coinDelta: Option<(string, real)>)
    requires c.history != []
    ensures var r := Charged(c, at, row, cashDelta, coinDelta);
            r.Ok? ==> && r.value.orders == c.orders && r.value.queue == c.queue && r.value.batches == c.batches
                      && r.value.activities == c.activities + [Activity(c.draws, at, at, row)]
  {
  }

  lemma RowFees(cfg: Config, c: Core, at: int, row: FeeRow)
    requires c.history != [] && FeesBalanced(cfg, c)
    ensures var r := ApplyFee(cfg, c, at, PostRow(row)); r.Ok? ==> FeesBalanced(cfg, r.value)
  {
    hide Charged, Owed, Owing, PostedRows;
    var r := ApplyFee(cfg, c, at, PostRow(row));
    if r.Ok? {
      ChargedFrame(c, at, SingleFeeRow(row), row.cashDelta, row.coinDelta);
      forall k
        ensures PostedRows(r.value.activities, k) == PostedRows(c.activities, k)
        ensures Owed(cfg, r.value.orders, r.value.activities, k) == Owed(cfg, c.orders, c.activities, k)
        ensures Owing(cfg, r.value.orders, r.value.activities, k) == Owing(cfg, c.orders, c.activities, k)
      {
        ChargedFees(cfg, c, at, SingleFeeRow(row), row.cashDelta, row.coinDelta, k);
        assert PostedRows(c.activities, k) + [] == PostedRows(c.activities, k);
      }
    }
  }

  // ---- one event, and all of them ----

  /** The head of the queue is not a posting, so taking it leaves the fee books alone. */
  lemma PoppedFees(cfg: Config, c: Core)
    requires c.queue != [] && !c.queue[0].event.PostBatch? && FeesBalanced(cfg, c)
    ensures FeesBalanced(cfg, Popped(c))
  {
    FeesUntouched(cfg, c, Popped(c));
  }

  lemma OrderEventFees(cfg: Config, c: Core, at: int, event: Event)
    requires c.history != [] && FeesBalanced(cfg, c) && !event.PostBatch? && !event.PostRow?
    ensures var r := Apply(cfg, c, at, event); r.Ok? ==> FeesBalanced(cfg, r.value)
  {
    hide Execute, FeesBalanced;
    if event.orderId < |c.orders| && !IsTerminal(c.orders[event.orderId].status) {
      var o := c.orders[event.orderId];
      if event.Fill? {
        var plan := PlanFill(c.quotes, o, at, event);
        if plan.Wait? {
          var later := Later(SeriesOf(c.quotes, o.instrument), at);
          forall k ensures PostingsQueued(Rearm(c, o.instrument, at, event).queue, k) == PostingsQueued(c.queue, k) {
            if later != [] { InsertPostings(c.queue, later[0].at, event, k); }
          }
          FeesUntouched(cfg, c, Rearm(c, o.instrument, at, event));
        } else if plan.Take? {
          ExecuteFees(cfg, c, event.orderId, at, plan.scripted, plan.price);
        }
      } else {
        FeesUntouched(cfg, c, Apply(cfg, c, at, event).value);
      }
    }
  }

  lemma {:induction false} DrainFees(cfg: Config, c: Core, now: int)
    requires c.history != [] && FeesBalanced(cfg, c)
    ensures var r := Drain(cfg, c, now); r.Ok? ==> FeesBalanced(cfg, r.value)
    decreases Weight(c)
  {
    hide FeesBalanced;
    if c.queue != [] && c.queue[0].at <= now {
      var head := c.queue[0];
      if head.event.PostBatch? {
        PostFees(cfg, c);
      } else {
        PoppedFees(cfg, c);
        if head.event.PostRow? { RowFees(cfg, Popped(c), head.at, head.event.row); }
        else { OrderEventFees(cfg, Popped(c), head.at, head.event); }
      }
      ApplyShrinks(cfg, Popped(c), head.at, head.event);
      var next := Apply(cfg, Popped(c), head.at, head.event);
      if next.Ok? { DrainFees(cfg, next.value, now); }
    }
  }

  // ---- whole calls ----

  lemma {:induction false} RearmedPostings(queue: seq<Timed>, at: int, waiting: seq<Waiting>, k: BatchKey)
    requires forall w :: w in waiting ==> w.event.Fill?
    ensures PostingsQueued(Rearmed(queue, at, waiting), k) == PostingsQueued(queue, k)
    decreases |waiting|
  {
    if waiting != [] {
      assert waiting[0] in waiting;
      InsertPostings(queue, MaxInt(at, waiting[0].since), waiting[0].event, k);
      RearmedPostings(Insert(queue, MaxInt(at, waiting[0].since), waiting[0].event), at, waiting[1..], k);
    }
  }

  lemma {:induction false} PushFillsPostings(c: Core, start: int, id: nat, fills: seq<ScriptedFill>, k: BatchKey)
    ensures PostingsQueued(PushFills(c, start, id, fills).queue, k) == PostingsQueued(c.queue, k)
    decreases |fills|
  {
    if fills != [] {
      var event := Fill(id, Some(fills[0].qty), fills[0].price);
      InsertPostings(c.queue, start + fills[0].offset, event, k);
      PushFillsPostings(Push(c, start + fills[0].offset, event), start, id, fills[1..], k);
    }
  }

  lemma {:induction false} SchedulePostings(cfg: Config, c: Core, id: nat, openNow: bool, start: int, script: Script,
                                            expires: bool, k: BatchKey)
    ensures PostingsQueued(ScheduleOrder(cfg, c, id, openNow, start, script, expires).queue, k)
            == PostingsQueued(c.queue, k)
  {
    hide Insert, PushFills, NextClose;
    InsertPostings(c.queue, start, Start(id), k);
    var started := if openNow then c else Push(c, start, Start(id));
    PushFillsPostings(started, start, id, script.fills, k);
    var pushed := PushFills(started, start, id, script.fills);
    if script.fills != [] {
      InsertPostings(pushed.queue, start + script.fills[|script.fills| - 1].offset, Terminal(id, script.terminal), k);
    }
    InsertPostings(started.queue, start + cfg.fillLatency, Fill(id, None, None), k);
    var filled :=
      if script.fills != [] then
        if script.terminal != Filled
        then Push(pushed, start + script.fills[|script.fills| - 1].offset, Terminal(id, script.terminal)) else pushed
      else if script.terminal == Filled then Push(started, start + cfg.fillLatency, Fill(id, None, None))
      else started;
    var close := NextClose(cfg.session, start);
    if close.Some? { InsertPostings(filled.queue, close.value, Expire(id), k); }
  }

  lemma BookedFees(cfg: Config, w: World, now: int, r: Request, openNow: bool, start: int)
    requires FeesBalanced(cfg, w.core)
    ensures FeesBalanced(cfg, Booked(cfg, w, now, r, openNow, start))
  {
    hide ScheduleOrder, FeesBalanced;
    var core := w.core.(orders := w.core.orders + [NewOrder(cfg, w, now, r, openNow)],
                        draws := w.core.draws + (if r.client == "" then 2 else 1));
    var expires := r.day && r.instrument.assetClass != Crypto;
    ScheduleKeeps(cfg, core, |w.core.orders|, openNow, start, ScriptFor(w, r.client), expires);
    forall k
      ensures PostingsQueued(Booked(cfg, w, now, r, openNow, start).queue, k)
           == PostingsQueued(w.core.queue, k)
    {
      SchedulePostings(cfg, core, |w.core.orders|, openNow, start, ScriptFor(w, r.client), expires, k);
    }
    FeesUntouched(cfg, w.core, Booked(cfg, w, now, r, openNow, start));
  }

  lemma StepFees(cfg: Config, w: World, now: int, cmd: Command)
    requires w.core.history != [] && FeesBalanced(cfg, w.core) && SaneParked(w.core.parked, |w.core.orders|)
    ensures var s := Step(cfg, w, now, cmd); s.Ok? ==> FeesBalanced(cfg, s.value.world.core)
  {
    hide FeesBalanced, Booked, RefusalCode, TotalQty, AllSound;
    if Materializes(cmd) {
      DrainFees(cfg, w.core, now);
      var m := Materialize(cfg, w, now);
      if m.Ok? {
        var core := m.value.core;
        match cmd {
          case Read =>
          case SeedPosition(_, _, _, _, _) => FeesUntouched(cfg, core, SeedCore(core, now, cmd));
          case Place(r) =>
            var openNow := r.instrument.assetClass == Crypto || IsOpen(cfg.session, now);
            var start := if openNow then Some(now) else NextOpen(cfg.session, now);
            if start.Some? { BookedFees(cfg, m.value, now, r, openNow, start.value); }
          case Cancel(id) =>
            if id < |core.orders| {
              FeesUntouched(cfg, core, core.(orders := core.orders[id := Finished(core.orders[id], Canceled, now)]));
            }
        }
      }
    } else if cmd.SetQuote? {
      var waiting := ParkedOn(w.core.parked, cmd.instrument);
      forall k
        ensures PostingsQueued(WithQuote(w.core, cmd.instrument, cmd.quote).queue, k)
             == PostingsQueued(w.core.queue, k)
      {
        RearmedPostings(w.core.queue, cmd.quote.at, waiting, k);
      }
      FeesUntouched(cfg, w.core, WithQuote(w.core, cmd.instrument, cmd.quote));
    }
  }

  /** Over every script: every batch holds exactly what its fills owe, each posting is queued at most once and happens
      at most once, and a posted batch was charged exactly its rounded final amount. */
  lemma {:induction false} RunAccountsForEveryFee(cfg: Config, w: World, script: seq<Call>)
    requires ValidConfig(cfg) && WorldOk(cfg, w) && FeesBalanced(cfg, w.core)
    ensures var r := Run(cfg, w, script); r.Ok? ==> FeesBalanced(cfg, r.value.world.core)
    decreases |script|
  {
    hide FeesBalanced, Step;
    if script != [] {
      StepOk(cfg, w, script[0].now, script[0].cmd);
      StepFees(cfg, w, script[0].now, script[0].cmd);
      var s := Step(cfg, w, script[0].now, script[0].cmd);
      if s.Ok? { RunAccountsForEveryFee(cfg, s.value.world, script[1..]); }
    }
  }
}
