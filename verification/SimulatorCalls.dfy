/** What each public call answers and does, said of the broker's state alone. */
module SimulatorCalls {
  import opened Common
  import opened TradingSession
  import opened SimulatorModel
  import opened SimulatorCommands
  import opened SimulatorOrders
  import opened SimulatorTimeline
  import opened SimulatorFills

  // ---- placing an order ----

  /** What open sells of the symbol may still take from the position. */
  function Promised(orders: seq<Order>, symbol: string): real {
    if orders == [] then 0.0
    else
      var n := |orders| - 1;
      var o := orders[n];
      Promised(orders[..n], symbol)
      + (if o.side == Sell && o.instrument.symbol == symbol && !Over(o) && o.filledQty < o.qty
         then o.qty - o.filledQty else 0.0)
  }

  lemma {:induction false} CommittedSplits(first: seq<Order>, rest: seq<Order>, symbol: string)
    ensures Committed(first + rest, symbol) == Committed(first, symbol) + Committed(rest, symbol)
  {
    if first == [] {
      assert first + rest == rest;
    } else {
      assert (first + rest)[1..] == first[1..] + rest;
      CommittedSplits(first[1..], rest, symbol);
    }
  }

  lemma {:induction false} PromisedIsCommitted(orders: seq<Order>, symbol: string)
    ensures Committed(orders, symbol) == Promised(orders, symbol)
  {
    if orders != [] {
      var n := |orders| - 1;
      PromisedIsCommitted(orders[..n], symbol);
      CommittedSplits(orders[..n], [orders[n]], symbol);
      assert orders == orders[..n] + [orders[n]];
      assert [orders[n]][1..] == [];
      assert Committed([orders[n]], symbol)
        == (if orders[n].instrument.symbol == symbol && orders[n].side == Sell && IsOpenStatus(orders[n].status)
            then orders[n].Remaining() else 0.0) + Committed([], symbol);
    }
  }

  predicate Malformed(r: Request) {
    r.qty <= 0.0 || (r.isLimit && (r.limitPrice.None? || r.limitPrice.value <= 0.0)) || |r.client| > 128
  }

  /** A sell of more than the position in force less what open sells still promise of it. */
  ghost predicate Unavailable(w: World, now: int, r: Request)
    requires w.core.history != []
  {
    var holdings := StateAt(w.core.history, now).holdings;
    var had := if r.instrument.symbol in holdings then holdings[r.instrument.symbol].qty else 0.0;
    r.side == Sell && !r.oversell && r.qty > had - Promised(w.core.orders, r.instrument.symbol)
  }

  predicate OpenFor(s: Session, k: Instrument, now: int) {
    k.assetClass == Crypto || s.always || exists i :: 0 <= i < |s.hours| && s.hours[i].open <= now < s.hours[i].close
  }

  ghost predicate OpensLater(s: Session, now: int) { exists i :: 0 <= i < |s.hours| && s.hours[i].open > now }

  /** When the order takes effect: at once while its market is open, otherwise at the next open. */
  ghost predicate Starts(s: Session, k: Instrument, now: int, start: int) {
    if OpenFor(s, k, now) then start == now
    else && start > now && (exists i :: 0 <= i < |s.hours| && s.hours[i].open == start)
         && forall i :: 0 <= i < |s.hours| && s.hours[i].open > now ==> start <= s.hours[i].open
  }

  ghost predicate ClosesAt(s: Session, start: int, close: int) {
    && close > start && (exists i :: 0 <= i < |s.hours| && s.hours[i].close == close)
    && forall i :: 0 <= i < |s.hours| && s.hours[i].close > start ==> close <= s.hours[i].close
  }

  function QtyOf(fills: seq<ScriptedFill>): real {
    if fills == [] then 0.0 else QtyOf(fills[..|fills| - 1]) + fills[|fills| - 1].qty
  }

  lemma {:induction false} TotalSplits(first: seq<ScriptedFill>, rest: seq<ScriptedFill>)
    ensures TotalQty(first + rest) == TotalQty(first) + TotalQty(rest)
  {
    if first == [] {
      assert first + rest == rest;
    } else {
      assert (first + rest)[1..] == first[1..] + rest;
      TotalSplits(first[1..], rest);
    }
  }

  lemma {:induction false} QtyIsTotal(fills: seq<ScriptedFill>)
    ensures TotalQty(fills) == QtyOf(fills)
  {
    if fills != [] {
      var n := |fills| - 1;
      QtyIsTotal(fills[..n]);
      TotalSplits(fills[..n], [fills[n]]);
      assert fills == fills[..n] + [fills[n]];
      assert [fills[n]][1..] == [];
      assert TotalQty([fills[n]]) == fills[n].qty + TotalQty([]);
    }
  }

  /** A script that cannot be this order's: more than its quantity, or another quantity where it ends filled. */
  predicate Overscripted(scripts: map<string, Script>, r: Request) {
    && r.client in scripts && scripts[r.client].fills != []
    && (QtyOf(scripts[r.client].fills) > r.qty
        || (scripts[r.client].terminal == Filled && QtyOf(scripts[r.client].fills) != r.qty))
  }

  /** The new order, accepted until its market opens. */
  predicate IsNewOrder(cfg: Config, w: World, now: int, r: Request, o: Order) {
    var open := OpenFor(cfg.session, r.instrument, now);
    o == Order(if r.client == "" then Generated(w.core.draws) else Given(r.client), r.instrument, r.side, r.qty,
               if r.isLimit then r.limitPrice else None, cfg.multiplier(r.instrument), now,
               if open then New else Accepted, if open then Some(now) else None, now, None, None, None,
               0.0, 0.0, None, 0, r.oversell, w.overfillPending, 0.0)
  }

  /** An event the new order causes: its start while it has to wait for it; its scripted fills and end at their offsets,
      or one fill of everything after the fill latency; and the expiry of a day order at the next close. */
  ghost predicate Caused(cfg: Config, w: World, now: int, r: Request, start: int, id: nat, t: Timed) {
    CausedBy(cfg, OpenFor(cfg.session, r.instrument, now), start, id,
             if r.client in w.scripts then w.scripts[r.client] else Script([], Filled),
             r.day && r.instrument.assetClass != Crypto, t)
  }

  ghost predicate CausedBy(cfg: Config, open: bool, start: int, id: nat, script: Script, expires: bool, t: Timed) {
    || (!open && t == Timed(start, Start(id)))
    || (exists j :: 0 <= j < |script.fills|
                    && t == Timed(start + script.fills[j].offset,
                                  Fill(id, Some(script.fills[j].qty), script.fills[j].price)))
    || (script.fills != [] && script.terminal != Filled
        && t == Timed(start + script.fills[|script.fills| - 1].offset, Terminal(id, script.terminal)))
    || (script.fills == [] && script.terminal == Filled && t == Timed(start + cfg.fillLatency, Fill(id, None, None)))
    || (expires && ClosesAt(cfg.session, start, t.at) && t.event == Expire(id))
  }

  /** The world with one more order. */
  ghost predicate OrderAdded(cfg: Config, w: World, now: int, r: Request, v: World) {
    var id := |w.core.orders|;
    && |v.core.orders| == id + 1 && v.core.orders[..id] == w.core.orders
    && IsNewOrder(cfg, w, now, r, v.core.orders[id])
    && (exists start :: Starts(cfg.session, r.instrument, now, start)
                        && forall t :: t in v.core.queue <==> t in w.core.queue || Caused(cfg, w, now, r, start, id, t))
    && v == World(w.core.(orders := v.core.orders, queue := v.core.queue,
                          draws := w.core.draws + (if r.client == "" then 2 else 1)),
                  w.clients[v.core.orders[id].client := id], w.scripts - {r.client}, 0.0, w.materializedAt,
                  w.checks + [Check(0.0, None)])
  }

  lemma {:induction false} PushFillsAre(c: Core, start: int, id: nat, fills: seq<ScriptedFill>, t: Timed)
    ensures t in PushFills(c, start, id, fills).queue
            <==> || t in c.queue
                 || exists j :: 0 <= j < |fills|
                                && t == Timed(start + fills[j].offset, Fill(id, Some(fills[j].qty), fills[j].price))
    decreases |fills|
  {
    hide Insert;
    if fills != [] {
      var f := fills[0];
      InsertMembers(c.queue, start + f.offset, Fill(id, Some(f.qty), f.price));
      PushFillsAre(Push(c, start + f.offset, Fill(id, Some(f.qty), f.price)), start, id, fills[1..], t);
      if j :| 0 <= j < |fills| && t == Timed(start + fills[j].offset, Fill(id, Some(fills[j].qty), fills[j].price)) {
        if j > 0 { assert fills[1..][j - 1] == fills[j]; }
      }
    }
  }

  lemma CloseIs(s: Session, start: int, close: int)
    requires Valid(s)
    ensures NextClose(s, start) == Some(close) <==> ClosesAt(s, start, close)
  {
    NextCloseIsTheFirst(s, start);
  }

  /** The events queued for an order, from what they do to the queue. */
  lemma ScheduledAre(cfg: Config, c: Core, id: nat, openNow: bool, start: int, script: Script, expires: bool, t: Timed)
    requires ValidConfig(cfg)
    ensures t in ScheduleOrder(cfg, c, id, openNow, start, script, expires).queue
            <==> t in c.queue || CausedBy(cfg, openNow, start, id, script, expires, t)
  {
    hide Insert, PushFills, NextClose, ClosesAt;
    var fills := script.fills;
    InsertMembers(c.queue, start, Start(id));
    var started := if openNow then c else Push(c, start, Start(id));
    PushFillsAre(started, start, id, fills, t);
    var pushed := PushFills(started, start, id, fills);
    if fills != [] { InsertMembers(pushed.queue, start + fills[|fills| - 1].offset, Terminal(id, script.terminal)); }
    InsertMembers(started.queue, start + cfg.fillLatency, Fill(id, None, None));
    var filled :=
      if fills != [] then
        if script.terminal != Filled
        then Push(pushed, start + fills[|fills| - 1].offset, Terminal(id, script.terminal)) else pushed
      else if script.terminal == Filled then Push(started, start + cfg.fillLatency, Fill(id, None, None))
      else started;
    var close := NextClose(cfg.session, start);
    CloseIs(cfg.session, start, t.at);
    if close.Some? { InsertMembers(filled.queue, close.value, Expire(id)); }
  }

  /** The order's start is the one the session gives. */
  lemma StartIs(cfg: Config, now: int, k: Instrument)
    requires ValidConfig(cfg)
    ensures var open := k.assetClass == Crypto || IsOpen(cfg.session, now);
            var start := if open then Some(now) else NextOpen(cfg.session, now);
            && (open <==> OpenFor(cfg.session, k, now))
            && (start.None? <==> !OpenFor(cfg.session, k, now) && !OpensLater(cfg.session, now))
            && (start.Some? ==> Starts(cfg.session, k, now, start.value))
  {
    OpenIffInsideASession(cfg.session, now);
    NextOpenIsTheFirst(cfg.session, now);
  }

  lemma AcceptIs(cfg: Config, w: World, now: int, r: Request, start: int)
    requires ValidConfig(cfg) && w.core.history != [] && Starts(cfg.session, r.instrument, now, start)
    ensures OrderAdded(cfg, w, now, r, Accept(cfg, w, now, r, OpenFor(cfg.session, r.instrument, now), start))
  {
    hide ScheduleOrder, Starts, ClosesAt, OpenFor, CausedBy;
    var open, id := OpenFor(cfg.session, r.instrument, now), |w.core.orders|;
    var order := NewOrder(cfg, w, now, r, open);
    var core := w.core.(orders := w.core.orders + [order],
                        draws := w.core.draws + (if r.client == "" then 2 else 1));
    var script, expires := ScriptFor(w, r.client), r.day && r.instrument.assetClass != Crypto;
    ScheduleKeeps(cfg, core, id, open, start, script, expires);
    var v := Accept(cfg, w, now, r, open, start);
    assert v.core.orders == w.core.orders + [order];
    assert v.core == ScheduleOrder(cfg, core, id, open, start, script, expires);
    forall t ensures t in v.core.queue <==> t in w.core.queue || Caused(cfg, w, now, r, start, id, t) {
      ScheduledAre(cfg, core, id, open, start, script, expires, t);
      assert core.queue == w.core.queue;
    }
  }

  /** What placing an order answers on the state a read has just brought up to date. A malformed request is 422, a
      client id in use the configured code, a sell of what is not available 403; with no session ahead, or a script
      that cannot be its own, the script is refused. None of these changes anything but that such a script is dropped.
      Otherwise the order is added, with its events. */
  lemma PlaceIs(cfg: Config, w: World, now: int, r: Request)
    requires ValidConfig(cfg) && w.core.history != []
    ensures var s := PlaceOrder(cfg, w, now, r);
            if Malformed(r) then s == Stepped(w, HttpError(422))
            else if Given(r.client) in w.clients then s == Stepped(w, HttpError(cfg.duplicateIdCode))
            else if Unavailable(w, now, r) then s == Stepped(w, HttpError(403))
            else if !OpenFor(cfg.session, r.instrument, now) && !OpensLater(cfg.session, now) then
              s == Stepped(w, ScriptRefused)
            else if Overscripted(w.scripts, r) then s == Stepped(w.(scripts := w.scripts - {r.client}), ScriptRefused)
            else s.answer == Placed(|w.core.orders|) && OrderAdded(cfg, w, now, r, s.world)
  {
    hide Accept, OrderAdded, OpenFor, OpensLater, Starts, Committed, Promised, TotalQty, QtyOf, IsOpen, NextOpen;
    PromisedIsCommitted(w.core.orders, r.instrument.symbol);
    StartIs(cfg, now, r.instrument);
    QtyIsTotal(ScriptFor(w, r.client).fills);
    assert TotalQty([]) == 0.0 by { NothingScripted(); }
    var open := OpenFor(cfg.session, r.instrument, now);
    var start := if open then Some(now) else NextOpen(cfg.session, now);
    if start.Some? { AcceptIs(cfg, w, now, r, start.value); }
  }

  lemma NothingScripted()
    ensures TotalQty([]) == 0.0
  {
  }

  // ---- cancelling ----

  /** A cancel of an unknown order is 404; of one that is over 422, or accepted in silence where the scenario says so;
      otherwise the order is canceled from this instant on and nothing else moves. */
  lemma CancelIs(cfg: Config, w: World, now: int, id: nat)
    requires WorldOk(cfg, w)
    ensures var s := CancelOrder(cfg, w, now, id);
            && s.Ok?
            && if id >= |w.core.orders| then s.value == Stepped(w, HttpError(404))
               else if Over(w.core.orders[id]) then
                 s.value == Stepped(w, if cfg.paperCancelReturns204 then Done else HttpError(422))
               else
                 var v := s.value.world;
                 && s.value.answer == Done && |v.core.orders| == |w.core.orders|
                 && v == w.(core := w.core.(orders := v.core.orders), checks := v.checks)
                 && (forall i :: 0 <= i < |w.core.orders| && i != id ==> v.core.orders[i] == w.core.orders[i])
                 && Restamped(w.core.orders[id], v.core.orders[id], Canceled, now)
  {
    hide WorldOk, AllSound, Checked, NextCheck;
    CancelOk(cfg, w, now, id);
  }

  // ---- scripting ----

  /** No quote of the series is at or after the instant. */
  predicate AllBefore(series: seq<Quote>, at: int) { forall x :: x in series ==> x.at < at }

  /** A quote is taken when its sides are not negative and not crossed unless that is allowed, and it is no earlier
      than what a read has observed and later than every quote of its instrument. It joins the series, and the fills
      parked on the instrument are queued at it, or at the instant they began to wait where that is later. */
  lemma QuoteIs(w: World, k: Instrument, q: Quote, allowCrossed: bool)
    requires QuotesRising(w.core.quotes)
    ensures var s, c := Configure(w, SetQuote(k, q, allowCrossed)), w.core;
            if && q.bid >= 0.0 && q.ask >= 0.0 && (allowCrossed || q.bid <= q.ask)
               && (w.materializedAt.None? || w.materializedAt.value <= q.at)
               && AllBefore(if k in c.quotes then c.quotes[k] else [], q.at)
            then
              && s.answer == Done && s.world == w.(core := s.world.core)
              && s.world.core == c.(quotes := c.quotes[k := (if k in c.quotes then c.quotes[k] else []) + [q]],
                                    queue := s.world.core.queue, parked := c.parked - {k})
              && (forall t :: t in s.world.core.queue <==>
                    || t in c.queue
                    || (k in c.parked && exists x :: x in c.parked[k] && t.event == x.event
                                                     && t.at == if q.at >= x.since then q.at else x.since))
            else s == Stepped(w, Invalid)
  {
    hide Rearmed;
    var series := SeriesOf(w.core.quotes, k);
    LastIsLatest(series, q.at);
    if QuoteAccepted(w, k, q, allowCrossed) {
      forall t ensures t in Rearmed(w.core.queue, q.at, ParkedOn(w.core.parked, k))
                   <==> t in w.core.queue || exists x :: x in ParkedOn(w.core.parked, k) && t == Released(q.at, x) {
        RearmedAre(w.core.queue, q.at, ParkedOn(w.core.parked, k), t);
      }
    }
  }

  function Released(at: int, x: Waiting): Timed { Timed(if at >= x.since then at else x.since, x.event) }

  lemma {:induction false} RearmedAre(queue: seq<Timed>, at: int, waiting: seq<Waiting>, t: Timed)
    ensures t in Rearmed(queue, at, waiting) <==> t in queue || exists x :: x in waiting && t == Released(at, x)
    decreases |waiting|
  {
    if waiting != [] {
      InsertMembers(queue, MaxInt(at, waiting[0].since), waiting[0].event);
      RearmedAre(Insert(queue, MaxInt(at, waiting[0].since), waiting[0].event), at, waiting[1..], t);
      assert waiting == [waiting[0]] + waiting[1..];
      assert forall x :: x in waiting <==> x == waiting[0] || x in waiting[1..];
      assert Released(at, waiting[0]) == Timed(MaxInt(at, waiting[0].since), waiting[0].event);
    }
  }

  lemma LastIsLatest(series: seq<Quote>, at: int)
    requires Rising(series)
    ensures AllBefore(series, at) <==> series == [] || at > series[|series| - 1].at
  {
    if series != [] { assert series[|series| - 1] in series; }
  }

  /** A script is taken for a client id not in use: fills of positive quantities at positive or open prices, at offsets
      that are not negative and never decrease, ending filled, canceled or expired, and filled only with some fill. */
  lemma ScheduleIs(w: World, client: string, fills: seq<ScriptedFill>, terminal: Status)
    ensures var s := Configure(w, ScheduleFills(client, fills, terminal));
            if && Given(client) !in w.clients && client !in w.scripts
               && (terminal == Canceled || terminal == Expired || (terminal == Filled && fills != []))
               && (forall i :: 0 <= i < |fills| ==>
                     fills[i].offset >= 0 && fills[i].qty > 0.0 && fills[i].price.GetOr(1.0) > 0.0)
               && (forall i :: 0 < i < |fills| ==> fills[i].offset >= fills[i - 1].offset)
            then s == Stepped(w.(scripts := w.scripts[client := Script(fills, terminal)]), Done)
            else s == Stepped(w, Invalid)
  {
    if forall i :: 0 < i < |fills| ==> fills[i].offset >= fills[i - 1].offset {
      forall i, j | 0 <= i < j < |fills| ensures fills[i].offset <= fills[j].offset { Ascending(fills, i, j); }
    }
    if ScriptAccepted(fills, terminal) {
      forall i | 0 <= i < |fills| ensures fills[i].offset >= 0 { assert i > 0 ==> fills[0].offset <= fills[i].offset; }
    }
  }

  lemma {:induction false} Ascending(fills: seq<ScriptedFill>, i: nat, j: nat)
    requires i <= j < |fills| && forall k :: 0 < k < |fills| ==> fills[k].offset >= fills[k - 1].offset
    ensures fills[i].offset <= fills[j].offset
    decreases j
  {
    if i < j { Ascending(fills, i, j - 1); }
  }

  /** An overfill is armed when it is positive. */
  lemma OverfillIs(w: World, extra: real)
    ensures Configure(w, OverfillNext(extra))
         == if extra > 0.0 then Stepped(w.(overfillPending := extra), Done) else Stepped(w, Invalid)
  {
  }

  /** A position is transferred in for a symbol not held, from this instant on, with cash and every other position as
      they are; otherwise nothing happens. */
  lemma SeedIs(cfg: Config, w: World, now: int, cmd: Command)
    requires cmd.SeedPosition? && InOrder(w.core, now)
    ensures Materializes(cmd) <==> cmd.qty != 0.0 && cmd.avgEntry > 0.0 && cmd.multiplier > 0.0
    ensures !Materializes(cmd) ==> Configure(w, cmd) == Stepped(w, Invalid)
    ensures Materializes(cmd) ==>
              var s, before := Act(cfg, w, now, cmd), StateAt(w.core.history, now);
              if cmd.symbol in before.holdings then s == Ok(Stepped(w, Invalid))
              else && s.Ok? && s.value.answer == Seeded(cmd.symbol, cmd.qty)
                   && s.value.world == w.(core := w.core.(history := s.value.world.core.history))
                   && InForceFrom(w.core.history, s.value.world.core.history, now, State(now, before.cash,
                        before.holdings[cmd.symbol := Holding(cmd.assetClass, cmd.qty, cmd.avgEntry, cmd.multiplier)]))
  {
    hide StateAt, InForceFrom, Record;
    if Materializes(cmd) {
      var before := StateAt(w.core.history, now);
      RecordInForce(w.core.history, State(now, before.cash,
        before.holdings[cmd.symbol := Holding(cmd.assetClass, cmd.qty, cmd.avgEntry, cmd.multiplier)]));
    }
  }

  // ---- the check after every read ----

  /** The report gives the order's own value in every field. */
  predicate Tells(r: Report, o: Order) {
    && r.client == o.client && r.instrument == o.instrument && r.side == o.side && r.qty == o.qty && r.limit == o.limit
    && r.createdAt == o.createdAt && r.status == o.status && r.submittedAt == o.submittedAt
    && r.updatedAt == o.updatedAt && r.filledAt == o.filledAt && r.canceledAt == o.canceledAt
    && r.expiredAt == o.expiredAt && r.filledQty == o.filledQty && r.avgPrice == o.avgPrice
  }

  function RowsNaming(activities: seq<Activity>, id: nat): set<nat> {
    set j | 0 <= j < |activities| && activities[j].row.FillRow? && activities[j].row.orderId == id
  }

  lemma {:induction false} RowsAreCounted(activities: seq<Activity>, id: nat)
    ensures FillRows(activities, id) == |RowsNaming(activities, id)|
  {
    if activities != [] {
      var rest := RowsNaming(activities[1..], id);
      RowsAreCounted(activities[1..], id);
      var moved := set j | j in rest :: j + 1;
      MovedKeepsCount(rest, moved);
      var row := activities[0].row;
      forall j | j in RowsNaming(activities, id) && j > 0 ensures j in moved {
        assert j - 1 in rest;
      }
      assert RowsNaming(activities, id) == (if row.FillRow? && row.orderId == id then {0} else {}) + moved;
    }
  }

  lemma {:induction false} MovedKeepsCount(s: set<nat>, moved: set<nat>)
    requires moved == set j | j in s :: j + 1
    ensures |moved| == |s|
  {
    if s != {} {
      var x :| x in s;
      var fewer := set j | j in s - {x} :: j + 1;
      forall y | y in moved && y != x + 1 ensures y in fewer {
        assert y - 1 in s - {x};
      }
      assert x + 1 in moved && moved - {x + 1} == fewer;
      MovedKeepsCount(s - {x}, fewer);
    }
  }

  /** Filled outside what it may be, or less than it had been; an average that is not value by quantity, or none where
      there is one; rows that are not its fills; filled without its quantity, or that without being filled; or no longer
      what it ended as. */
  predicate Broken(o: Order, rows: set<nat>, seen: Check) {
    || o.filledQty < 0.0 || o.filledQty - o.qty > o.overfilled || o.filledQty < seen.filledQty
    || (o.avgPrice.None? && o.filledQty > 0.0)
    || (o.avgPrice.Some? && (o.filledQty == 0.0 || Times(o.avgPrice.value, o.filledQty) != o.notional))
    || |rows| != o.fillEvents
    || (o.status == Filled && o.filledQty < o.qty) || (o.status != Filled && o.filledQty >= o.qty)
    || (seen.snapshot.Some? && !Tells(seen.snapshot.value, o))
  }

  lemma Quotient(price: real, qty: real, value: real)
    requires qty != 0.0
    ensures Times(price, qty) == value <==> price == value / qty
  {
  }

  lemma SoundIs(o: Order, rows: set<nat>, seen: Check)
    ensures OrderSound(o, |rows|, seen) <==> !Broken(o, rows, seen)
  {
    if o.filledQty != 0.0 && o.avgPrice.Some? { Quotient(o.avgPrice.value, o.filledQty, o.notional); }
  }

  /** The check fails exactly on a broken order. Otherwise it remembers of each what is filled, and what the order is
      when it is first found ended, and changes nothing else. */
  lemma CheckIs(w: World)
    requires |w.checks| == |w.core.orders|
    ensures var c, r := w.core, CheckInvariants(w);
            && (r.Err? <==> exists i :: && 0 <= i < |c.orders|
                                        && Broken(c.orders[i], RowsNaming(c.activities, i), w.checks[i]))
            && (r.Err? ==> r.error == InvariantViolated)
            && (r.Ok? ==> && r.value == w.(checks := r.value.checks) && |r.value.checks| == |c.orders|
                          && forall i :: 0 <= i < |c.orders| ==> Remembers(r.value.checks[i], w.checks[i], c.orders[i]))
  {
    hide OrderSound, Broken;
    var c := w.core;
    forall i | 0 <= i < |c.orders|
      ensures OrderSound(c.orders[i], FillRows(c.activities, i), w.checks[i])
              <==> !Broken(c.orders[i], RowsNaming(c.activities, i), w.checks[i])
    {
      RowsAreCounted(c.activities, i);
      SoundIs(c.orders[i], RowsNaming(c.activities, i), w.checks[i]);
    }
  }

  predicate Remembers(now: Check, before: Check, o: Order) {
    && now.filledQty == o.filledQty
    && (before.snapshot.Some? || !Over(o) ==> now.snapshot == before.snapshot)
    && (before.snapshot.None? && Over(o) ==> now.snapshot.Some? && Tells(now.snapshot.value, o))
  }
}
