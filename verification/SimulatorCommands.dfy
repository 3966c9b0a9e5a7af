/** The simulator's public calls on values: what one call at the clock's instant does, and whole scripts of them. */
module SimulatorCommands {
  import opened Common
  import opened TradingSession
  import opened SimulatorModel

  datatype ScriptedFill = ScriptedFill(offset: int, qty: real, price: Option<real>)

  datatype Script = Script(fills: seq<ScriptedFill>, terminal: Status)

  /** The order as the broker reports it. */
  datatype Report = Report(
    client: ClientId, instrument: Instrument, side: Side, qty: real, limit: Option<real>, createdAt: int,
    status: Status, submittedAt: Option<int>, updatedAt: int, filledAt: Option<int>, canceledAt: Option<int>,
    expiredAt: Option<int>, filledQty: real, avgPrice: Option<real>)

  function ReportOf(o: Order): Report {
    Report(o.client, o.instrument, o.side, o.qty, o.limit, o.createdAt, o.status, o.submittedAt, o.updatedAt,
           o.filledAt, o.canceledAt, o.expiredAt, o.filledQty, o.avgPrice)
  }

  /** What the invariant check remembers about one order. */
  datatype Check = Check(filledQty: real, snapshot: Option<Report>)

  datatype World = World(
    core: Core, clients: map<ClientId, nat>, scripts: map<string, Script>, overfillPending: real,
    materializedAt: Option<int>, checks: seq<Check>)

  /** `oversell` is the ACCEPT_OVERSELL fault on this call. A limit order without a price is malformed. */
  datatype Request = Request(
    client: string, instrument: Instrument, side: Side, qty: real, isLimit: bool, limitPrice: Option<real>, day: bool,
    oversell: bool)

  datatype Command =
    | Read
    | SetQuote(instrument: Instrument, quote: Quote, allowCrossed: bool)
    | SeedPosition(symbol: string, assetClass: AssetClass, qty: real, avgEntry: real, multiplier: real)
    | ScheduleFills(client: string, fills: seq<ScriptedFill>, terminal: Status)
    | OverfillNext(extra: real)
    | Place(request: Request)
    | Cancel(orderId: nat)

  /** `Invalid` is a refused argument, `HttpError` the broker's HTTP answer, `ScriptRefused` a script that cannot
      hold. */
  datatype Answer =
    | Done | Invalid | Placed(orderId: nat) | HttpError(code: int) | ScriptRefused | Seeded(symbol: string, qty: real)

  datatype Stepped = Stepped(world: World, answer: Answer)

  // ---- the invariant check ----

  function FillRows(activities: seq<Activity>, id: nat): nat {
    if activities == [] then 0
    else
      (if activities[0].row.FillRow? && activities[0].row.orderId == id then 1 else 0)
      + FillRows(activities[1..], id)
  }

  /** The seven conditions, in the order the simulator tests them. */
  predicate OrderSound(o: Order, fillRows: nat, check: Check) {
    && 0.0 <= o.filledQty <= o.qty + o.overfilled
    && check.filledQty <= o.filledQty
    && (o.filledQty != 0.0 ==> o.avgPrice == Some(o.notional / o.filledQty))
    && (o.filledQty == 0.0 ==> o.avgPrice == None)
    && fillRows == o.fillEvents
    && (o.status == Filled <==> o.filledQty >= o.qty)
    && (check.snapshot.Some? ==> check.snapshot.value == ReportOf(o))
  }

  function NextCheck(o: Order, check: Check): Check {
    Check(o.filledQty, if IsTerminal(o.status) && check.snapshot.None? then Some(ReportOf(o)) else check.snapshot)
  }

  predicate AllSound(c: Core, checks: seq<Check>) {
    && |checks| == |c.orders|
    && forall i :: 0 <= i < |c.orders| ==> OrderSound(c.orders[i], FillRows(c.activities, i), checks[i])
  }

  function Checked(c: Core, checks: seq<Check>): seq<Check>
    requires |checks| == |c.orders|
  {
    seq(|checks|, i requires 0 <= i < |checks| => NextCheck(c.orders[i], checks[i]))
  }

  function CheckInvariants(w: World): Result<World, ScriptError> {
    if AllSound(w.core, w.checks) then Ok(w.(checks := Checked(w.core, w.checks))) else Err(InvariantViolated)
  }

  // ---- what every read does first ----

  function Observed(before: Option<int>, now: int): Option<int> {
    if before.None? || now > before.value then Some(now) else before
  }

  function Materialize(cfg: Config, w: World, now: int): Result<World, ScriptError>
    requires w.core.history != []
  {
    match Drain(cfg, w.core, now)
    case Err(e) => Err(e)
    case Ok(core) => CheckInvariants(w.(core := core, materializedAt := Observed(w.materializedAt, now)))
  }

  // ---- scripting calls ----

  /** A new quote on one instrument, with its parked fills re-armed. */
  function WithQuote(c: Core, k: Instrument, q: Quote): Core {
    c.(quotes := c.quotes[k := SeriesOf(c.quotes, k) + [q]],
       queue := Rearmed(c.queue, q.at, ParkedOn(c.parked, k)),
       parked := c.parked - {k})
  }

  predicate QuoteAccepted(w: World, k: Instrument, q: Quote, allowCrossed: bool) {
    var series := SeriesOf(w.core.quotes, k);
    && q.bid >= 0.0 && q.ask >= 0.0
    && (q.bid <= q.ask || allowCrossed)
    && (w.materializedAt.Some? ==> q.at >= w.materializedAt.value)
    && (series != [] ==> q.at > series[|series| - 1].at)
  }

  predicate ScriptAccepted(fills: seq<ScriptedFill>, terminal: Status) {
    && (terminal == Filled || terminal == Canceled || terminal == Expired)
    && (fills != [] ==> fills[0].offset >= 0)
    && (forall i, j :: 0 <= i < j < |fills| ==> fills[i].offset <= fills[j].offset)
    && (forall i :: 0 <= i < |fills| ==>
          fills[i].qty > 0.0 && (fills[i].price.Some? ==> fills[i].price.value > 0.0))
    && (terminal == Filled ==> fills != [])
  }

  predicate ScheduleAccepted(w: World, cmd: Command)
    requires cmd.ScheduleFills?
  {
    Given(cmd.client) !in w.clients && cmd.client !in w.scripts && ScriptAccepted(cmd.fills, cmd.terminal)
  }

  function SeedCore(c: Core, now: int, cmd: Command): Core
    requires c.history != [] && cmd.SeedPosition?
  {
    var s := StateAt(c.history, now);
    c.(history := Record(c.history, State(now, s.cash,
         s.holdings[cmd.symbol := Holding(cmd.assetClass, cmd.qty, cmd.avgEntry, cmd.multiplier)])))
  }

  // ---- orders ----

  /** What open sells of the symbol have not filled yet. */
  function Committed(orders: seq<Order>, symbol: string): real {
    if orders == [] then 0.0
    else (if orders[0].instrument.symbol == symbol && orders[0].side == Sell && IsOpenStatus(orders[0].status)
          then orders[0].Remaining() else 0.0) + Committed(orders[1..], symbol)
  }

  function TotalQty(fills: seq<ScriptedFill>): real {
    if fills == [] then 0.0 else fills[0].qty + TotalQty(fills[1..])
  }

  /** The events of a scripted execution, pushed in order. */
  function PushFills(c: Core, start: int, id: nat, fills: seq<ScriptedFill>): Core
    decreases |fills|
  {
    if fills == [] then c
    else PushFills(Push(c, start + fills[0].offset, Fill(id, Some(fills[0].qty), fills[0].price)), start, id,
      fills[1..])
  }

  function ScriptFor(w: World, client: string): Script {
    if client in w.scripts then w.scripts[client] else Script([], Filled)
  }

  function ScheduleOrder(cfg: Config, c: Core, id: nat, openNow: bool, start: int, script: Script,
                         expires: bool): Core {
    var started := if openNow then c else Push(c, start, Start(id));
    var filled :=
      if script.fills != [] then
        var pushed := PushFills(started, start, id, script.fills);
        if script.terminal != Filled
        then Push(pushed, start + script.fills[|script.fills| - 1].offset, Terminal(id, script.terminal)) else pushed
      else if script.terminal == Filled then Push(started, start + cfg.fillLatency, Fill(id, None, None))
      else started;
    var close := NextClose(cfg.session, start);
    if expires && close.Some? then Push(filled, close.value, Expire(id)) else filled
  }

  function NewOrder(cfg: Config, w: World, now: int, r: Request, openNow: bool): Order {
    Order(if r.client == "" then Generated(w.core.draws) else Given(r.client), r.instrument, r.side, r.qty,
          if r.isLimit then r.limitPrice else None, cfg.multiplier(r.instrument), now,
          if openNow then New else Accepted, if openNow then Some(now) else None, now, None, None, None,
          0.0, 0.0, None, 0, r.oversell, w.overfillPending, 0.0)
  }

  /** The refusals of an order, before anything changes; `w` has been materialized. */
  function RefusalCode(cfg: Config, w: World, now: int, r: Request): Option<int>
    requires w.core.history != []
  {
    if r.qty <= 0.0 then Some(422)
    else if r.isLimit && (r.limitPrice.None? || r.limitPrice.value <= 0.0) then Some(422)
    else if |r.client| > 128 then Some(422)
    else if Given(r.client) in w.clients then Some(cfg.duplicateIdCode)
    else if r.side == Sell && !r.oversell
            && r.qty > Qty(StateAt(w.core.history, now).holdings, r.instrument.symbol)
                       - Committed(w.core.orders, r.instrument.symbol) then Some(403)
    else None
  }

  /** The order book with one more order, and its events queued. */
  function Booked(cfg: Config, w: World, now: int, r: Request, openNow: bool, start: int): Core {
    var core := w.core.(orders := w.core.orders + [NewOrder(cfg, w, now, r, openNow)],
                        draws := w.core.draws + (if r.client == "" then 2 else 1));
    ScheduleOrder(cfg, core, |w.core.orders|, openNow, start, ScriptFor(w, r.client),
                  r.day && r.instrument.assetClass != Crypto)
  }

  function Accept(cfg: Config, w: World, now: int, r: Request, openNow: bool, start: int): World {
    World(Booked(cfg, w, now, r, openNow, start),
      w.clients[NewOrder(cfg, w, now, r, openNow).client := |w.core.orders|],
          w.scripts - {r.client}, 0.0, w.materializedAt, w.checks + [Check(0.0, None)])
  }

  /** `w` has been materialized at `now`. A refused script is discarded, so a corrected one can be scheduled. */
  function PlaceOrder(cfg: Config, w: World, now: int, r: Request): Stepped
    requires w.core.history != []
  {
    var refusal := RefusalCode(cfg, w, now, r);
    if refusal.Some? then Stepped(w, HttpError(refusal.value))
    else
      var openNow := r.instrument.assetClass == Crypto || IsOpen(cfg.session, now);
      var start := if openNow then Some(now) else NextOpen(cfg.session, now);
      if start.None? then Stepped(w, ScriptRefused)
      else
        var script := ScriptFor(w, r.client);
        var total := TotalQty(script.fills);
        if script.fills != [] && (total > r.qty || (script.terminal == Filled && total != r.qty)) then
          Stepped(w.(scripts := w.scripts - {r.client}), ScriptRefused)
        else Stepped(Accept(cfg, w, now, r, openNow, start.value), Placed(|w.core.orders|))
  }

  /** `w` has been materialized at `now`. */
  function CancelOrder(cfg: Config, w: World, now: int, id: nat): Result<Stepped, ScriptError> {
    if id >= |w.core.orders| then Ok(Stepped(w, HttpError(404)))
    else if IsTerminal(w.core.orders[id].status) then
      Ok(Stepped(w, if cfg.paperCancelReturns204 then Done else HttpError(422)))
    else
      var core := w.core.(orders := w.core.orders[id := Finished(w.core.orders[id], Canceled, now)]);
      match CheckInvariants(w.(core := core))
      case Err(e) => Err(e)
      case Ok(next) => Ok(Stepped(next, Done))
  }

  // ---- one call, and a script of calls ----

  /** The calls that apply due events before anything else. */
  predicate Materializes(cmd: Command) {
    cmd.Read? || cmd.Place? || cmd.Cancel?
      || (cmd.SeedPosition? && cmd.qty != 0.0 && cmd.avgEntry > 0.0 && cmd.multiplier > 0.0)
  }

  /** The effect of a call that does not materialize. */
  function Configure(w: World, cmd: Command): Stepped
    requires !Materializes(cmd)
  {
    match cmd
    case SetQuote(k, q, allowCrossed) =>
      if QuoteAccepted(w, k, q, allowCrossed) then Stepped(w.(core := WithQuote(w.core, k, q)), Done)
        else Stepped(w, Invalid)
    case ScheduleFills(client, fills, terminal) =>
      if ScheduleAccepted(w, cmd) then Stepped(w.(scripts := w.scripts[client := Script(fills, terminal)]), Done)
      else Stepped(w, Invalid)
    case OverfillNext(extra) =>
      if extra > 0.0 then Stepped(w.(overfillPending := extra), Done) else Stepped(w, Invalid)
    case SeedPosition(_, _, _, _, _) => Stepped(w, Invalid)
  }

  /** The effect of a call on the world it has just materialized. */
  function Act(cfg: Config, w: World, now: int, cmd: Command): Result<Stepped, ScriptError>
    requires w.core.history != [] && Materializes(cmd)
  {
    match cmd
    case Read => Ok(Stepped(w, Done))
    case SeedPosition(symbol, _, qty, _, _) =>
      if symbol in StateAt(w.core.history, now).holdings then Ok(Stepped(w, Invalid))
      else Ok(Stepped(w.(core := SeedCore(w.core, now, cmd)), Seeded(symbol, qty)))
    case Place(r) => Ok(PlaceOrder(cfg, w, now, r))
    case Cancel(id) => CancelOrder(cfg, w, now, id)
  }

  function Step(cfg: Config, w: World, now: int, cmd: Command): Result<Stepped, ScriptError>
    requires w.core.history != []
  {
    if !Materializes(cmd) then Ok(Configure(w, cmd))
    else match Materialize(cfg, w, now)
      case Err(e) => Err(e)
      case Ok(ready) => Act(cfg, ready, now, cmd)
  }

  datatype Call = Call(now: int, cmd: Command)

  /** The final world, and the answer to every call that is not a read. */
  datatype Ran = Ran(world: World, answers: seq<Answer>)

  lemma StepKeepsHistory(cfg: Config, w: World, now: int, cmd: Command)
    requires w.core.history != []
    ensures Step(cfg, w, now, cmd).Ok? ==> Step(cfg, w, now, cmd).value.world.core.history != []
  {
    if cmd.Place? && Materialize(cfg, w, now).Ok? {
      PlaceKeepsHistory(cfg, Materialize(cfg, w, now).value, now, cmd.request);
    }
  }

  lemma {:induction false} PushFillsKeeps(c: Core, start: int, id: nat, fills: seq<ScriptedFill>)
    ensures PushFills(c, start, id, fills) == c.(queue := PushFills(c, start, id, fills).queue)
    decreases |fills|
  {
    if fills != [] {
      PushFillsKeeps(Push(c, start + fills[0].offset, Fill(id, Some(fills[0].qty), fills[0].price)), start, id,
        fills[1..]);
    }
  }

  lemma ScheduleKeeps(cfg: Config, c: Core, id: nat, openNow: bool, start: int, script: Script, expires: bool)
    ensures var s := ScheduleOrder(cfg, c, id, openNow, start, script, expires); s == c.(queue := s.queue)
  {
    var started := if openNow then c else Push(c, start, Start(id));
    PushFillsKeeps(started, start, id, script.fills);
  }

  lemma BookedFrame(cfg: Config, w: World, now: int, r: Request, openNow: bool, start: int)
    ensures var c := Booked(cfg, w, now, r, openNow, start);
            c == w.core.(queue := c.queue, orders := c.orders, draws := c.draws)
  {
    hide ScheduleOrder, NewOrder;
    var core := w.core.(orders := w.core.orders + [NewOrder(cfg, w, now, r, openNow)],
                        draws := w.core.draws + (if r.client == "" then 2 else 1));
    ScheduleKeeps(cfg, core, |w.core.orders|, openNow, start, ScriptFor(w, r.client),
                  r.day && r.instrument.assetClass != Crypto);
  }

  lemma PlaceKeepsHistory(cfg: Config, w: World, now: int, r: Request)
    requires w.core.history != []
    ensures PlaceOrder(cfg, w, now, r).world.core.history == w.core.history
  {
    hide Booked, RefusalCode, TotalQty;
    var openNow := r.instrument.assetClass == Crypto || IsOpen(cfg.session, now);
    var start := if openNow then Some(now) else NextOpen(cfg.session, now);
    if start.Some? { BookedFrame(cfg, w, now, r, openNow, start.value); }
  }

  function Run(cfg: Config, w: World, script: seq<Call>): Result<Ran, ScriptError>
    requires w.core.history != []
    decreases |script|
  {
    if script == [] then Ok(Ran(w, []))
    else
      match Step(cfg, w, script[0].now, script[0].cmd)
      case Err(e) => Err(e)
      case Ok(stepped) =>
        StepKeepsHistory(cfg, w, script[0].now, script[0].cmd);
        match Run(cfg, stepped.world, script[1..])
        case Err(e) => Err(e)
        case Ok(ran) => Ok(ran.(answers := (if script[0].cmd.Read? then [] else [stepped.answer]) + ran.answers))
  }

  function WithoutReads(script: seq<Call>): seq<Call> {
    if script == [] then []
    else (if script[0].cmd.Read? then [] else [script[0]]) + WithoutReads(script[1..])
  }

  /** The clock never moves backwards. */
  predicate ClockForward(from: int, script: seq<Call>)
    decreases |script|
  {
    script == [] || (from <= script[0].now && ClockForward(script[0].now, script[1..]))
  }
}
