/** Selling over whole runs. The broker's position, its orders and the local settlement record move independently; one
    sell authorization reads them one after another while fills, cancels, settlements and external orders go on in
    between. However stale the reads, what is authorized never exceeds the position free of unfilled sells. */
module SellableRuns {
  import opened Common
  import opened Sellable
  import opened Sums

  // ---- the world ----

  /** One sell order of the asset: its true fills, and what the local store has attributed (`settled`), learned
      (`known`: its broker id) and closed (`terminal`). For an external order `settled` is what local inventory
      accounts for. */
  datatype SellOrder = SellOrder(
    external: bool, client: Option<nat>, qty: real, filled: real, open: bool, settled: real, known: bool,
      terminal: bool)
  {
    function Remaining(): real { if open then qty - filled else 0.0 }
  }

  datatype World = World(position: real, unsettledBuys: real, local: real, sells: seq<SellOrder>)

  function Unfilled(w: World): int -> real {
    i => if 0 <= i < |w.sells| then w.sells[i].Remaining() else 0.0
  }

  function Fills(w: World): int -> real {
    i => if 0 <= i < |w.sells| then w.sells[i].filled else 0.0
  }

  function Settled(w: World): int -> real {
    i => if 0 <= i < |w.sells| then w.sells[i].settled else 0.0
  }

  /** The position not already promised to an open sell. */
  function Free(w: World): real {
    w.position - Total(|w.sells|, Unfilled(w))
  }

  ghost predicate SellOk(s: SellOrder) {
    && 0.0 <= s.settled <= s.filled <= s.qty && s.qty > 0.0
    && (s.terminal ==> !s.open)
  }

  /** Own orders share their client id, or their having none, with no other sell: the exact condition under which no
      intent claims a stranger's order. Local inventory is the position less what is bought and not settled, plus what
      is sold and not settled. */
  ghost predicate Inv(w: World) {
    && (forall i :: 0 <= i < |w.sells| ==> SellOk(w.sells[i]))
    && (forall i, j :: 0 <= i < |w.sells| && 0 <= j < |w.sells| && i != j && !w.sells[i].external ==>
          w.sells[i].client != w.sells[j].client)
    && w.unsettledBuys >= 0.0
    && w.local == w.position - w.unsettledBuys + Total(|w.sells|, Fills(w)) - Total(|w.sells|, Settled(w))
  }

  /** Never oversold: the position covers every unfilled sell. */
  ghost predicate Safe(w: World) {
    Inv(w) && Free(w) >= 0.0
  }

  // ---- what goes on between reads ----

  datatype Step =
    | FillSell(i: nat, x: real)
    | Close(i: nat)
    | Learn(i: nat)
    | Settle(i: nat, x: real)
    | MarkTerminal(i: nat)
    | BuyFill(x: real)
    | BuySettle(x: real)
    | OpenExternal(qty: real, client: Option<nat>)

  predicate FreshClient(w: World, client: Option<nat>) {
    forall i :: 0 <= i < |w.sells| ==> w.sells[i].client != client
  }

  /** An external order may share its client id, or its having none, with other external orders only. */
  predicate FreshFromOwn(w: World, client: Option<nat>) {
    forall i :: 0 <= i < |w.sells| && !w.sells[i].external ==> w.sells[i].client != client
  }

  /** The broker fills within the order and accepts an external sell only from the free position; the store settles only
      what was filled and closes an order only after the broker has. */
  predicate Enabled(w: World, s: Step) {
    match s
    case FillSell(i, x) => i < |w.sells| && w.sells[i].open && 0.0 < x <= w.sells[i].qty - w.sells[i].filled
    case Close(i) => i < |w.sells|
    case Learn(i) => i < |w.sells|
    case Settle(i, x) => i < |w.sells| && 0.0 < x <= w.sells[i].filled - w.sells[i].settled
    case MarkTerminal(i) => i < |w.sells| && !w.sells[i].open
    case BuyFill(x) => x > 0.0
    case BuySettle(x) => 0.0 < x <= w.unsettledBuys
    case OpenExternal(qty, client) => 0.0 < qty <= Free(w) && FreshFromOwn(w, client)
  }

  function Next(w: World, s: Step): World
    requires Enabled(w, s)
  {
    match s
    case FillSell(i, x) =>
      var o := w.sells[i];
      w.(position := w.position - x,
         sells := w.sells[i := o.(filled := o.filled + x, open := o.filled + x < o.qty)])
    case Close(i) => w.(sells := w.sells[i := w.sells[i].(open := false)])
    case Learn(i) => w.(sells := w.sells[i := w.sells[i].(known := true)])
    case Settle(i, x) =>
      w.(local := w.local - x, sells := w.sells[i := w.sells[i].(settled := w.sells[i].settled + x)])
    case MarkTerminal(i) => w.(sells := w.sells[i := w.sells[i].(terminal := true)])
    case BuyFill(x) => w.(position := w.position + x, unsettledBuys := w.unsettledBuys + x)
    case BuySettle(x) => w.(unsettledBuys := w.unsettledBuys - x, local := w.local + x)
    case OpenExternal(qty, client) =>
      w.(sells := w.sells + [SellOrder(true, client, qty, 0.0, true, 0.0, false, false)])
  }

  /** What can have happened from one moment to a later one: fills, settlement and closing only grow, new orders are
      external, and the position falls by no more than the fills. */
  ghost predicate Later(a: World, b: World) {
    && |a.sells| <= |b.sells|
    && (forall i :: 0 <= i < |a.sells| ==> Grew(a.sells[i], b.sells[i]))
    && (forall j :: |a.sells| <= j < |b.sells| ==> b.sells[j].external)
    && a.position + Total(|a.sells|, Fills(a)) <= b.position + Total(|b.sells|, Fills(b))
  }

  predicate Grew(a: SellOrder, b: SellOrder) {
    && a.external == b.external && a.client == b.client && a.qty == b.qty
    && a.filled <= b.filled && a.settled <= b.settled
    && (!a.open ==> !b.open && b.filled == a.filled)
  }

  lemma LaterTrans(a: World, b: World, c: World)
    requires Later(a, b) && Later(b, c)
    ensures Later(a, c)
  {
    forall i | 0 <= i < |a.sells| ensures Grew(a.sells[i], c.sells[i]) {
      assert Grew(a.sells[i], b.sells[i]) && Grew(b.sells[i], c.sells[i]);
    }
    forall j | |a.sells| <= j < |c.sells| ensures c.sells[j].external {
      if j < |b.sells| { assert Grew(b.sells[j], c.sells[j]); }
    }
  }

  lemma ChangedSell(w: World, v: World, k: nat, o: SellOrder)
    requires k < |w.sells| && v.sells == w.sells[k := o]
    ensures Total(|v.sells|, Fills(v)) == Total(|w.sells|, Fills(w)) - w.sells[k].filled + o.filled
    ensures Total(|v.sells|, Settled(v)) == Total(|w.sells|, Settled(w)) - w.sells[k].settled + o.settled
    ensures Total(|v.sells|, Unfilled(v)) == Total(|w.sells|, Unfilled(w)) - w.sells[k].Remaining() + o.Remaining()
  {
    TotalChanged(|w.sells|, Fills(w), Fills(v), k);
    TotalChanged(|w.sells|, Settled(w), Settled(v), k);
    TotalChanged(|w.sells|, Unfilled(w), Unfilled(v), k);
  }

  lemma AddedSell(w: World, v: World, o: SellOrder)
    requires v.sells == w.sells + [o]
    ensures Total(|v.sells|, Fills(v)) == Total(|w.sells|, Fills(w)) + o.filled
    ensures Total(|v.sells|, Settled(v)) == Total(|w.sells|, Settled(w)) + o.settled
    ensures Total(|v.sells|, Unfilled(v)) == Total(|w.sells|, Unfilled(w)) + o.Remaining()
  {
    TotalSame(|w.sells|, Fills(w), Fills(v));
    TotalSame(|w.sells|, Settled(w), Settled(v));
    TotalSame(|w.sells|, Unfilled(w), Unfilled(v));
  }

  lemma OneSellMoves(w: World, v: World, k: nat, o: SellOrder)
    requires Safe(w) && k < |w.sells| && SellOk(o) && Grew(w.sells[k], o)
    requires v == w.(sells := w.sells[k := o], position := w.position - (o.filled - w.sells[k].filled),
                     local := w.local - (o.settled - w.sells[k].settled))
    requires w.sells[k].Remaining() - o.Remaining() >= o.filled - w.sells[k].filled
    ensures Safe(v) && Later(w, v) && Free(v) >= Free(w)
  {
    hide Total;
    ChangedSell(w, v, k, o);
  }

  lemma SameSells(w: World, v: World)
    requires Safe(w) && v.sells == w.sells && v.position >= w.position && v.unsettledBuys >= 0.0
    requires v.local - w.local == (v.position - w.position) - (v.unsettledBuys - w.unsettledBuys)
    ensures Safe(v) && Later(w, v) && Free(v) >= Free(w)
  {
    TotalSame(|w.sells|, Fills(w), Fills(v));
    TotalSame(|w.sells|, Settled(w), Settled(v));
    TotalSame(|w.sells|, Unfilled(w), Unfilled(v));
  }

  lemma OneSellMore(w: World, v: World, o: SellOrder)
    requires Safe(w) && v == w.(sells := w.sells + [o]) && SellOk(o) && o.filled == 0.0 && o.Remaining() <= Free(w)
    requires if o.external then FreshFromOwn(w, o.client) else FreshClient(w, o.client)
    ensures Safe(v) && (o.external ==> Later(w, v))
  {
    hide Total;
    AddedSell(w, v, o);
  }

  /** Every step keeps the accounting, keeps the position covering unfilled sells, and never lowers the free position by
      anything but an external order. */
  lemma StepSafe(w: World, s: Step)
    requires Safe(w) && Enabled(w, s)
    ensures Safe(Next(w, s)) && Later(w, Next(w, s))
    ensures !s.OpenExternal? ==> Free(Next(w, s)) >= Free(w)
  {
    var v := Next(w, s);
    hide Total, Later, Free;
    match s {
      case FillSell(i, _) => OneSellMoves(w, v, i, v.sells[i]);
      case Close(i) => OneSellMoves(w, v, i, v.sells[i]);
      case Learn(i) => OneSellMoves(w, v, i, v.sells[i]);
      case Settle(i, _) => OneSellMoves(w, v, i, v.sells[i]);
      case MarkTerminal(i) => OneSellMoves(w, v, i, v.sells[i]);
      case OpenExternal(_, _) => OneSellMore(w, v, v.sells[|w.sells|]);
      case BuyFill(_) => SameSells(w, v);
      case BuySettle(_) => SameSells(w, v);
    }
  }

  predicate AllEnabled(w: World, steps: seq<Step>)
    decreases |steps|
  {
    steps == [] || (Enabled(w, steps[0]) && AllEnabled(Next(w, steps[0]), steps[1..]))
  }

  function After(w: World, steps: seq<Step>): World
    requires AllEnabled(w, steps)
    decreases |steps|
  {
    if steps == [] then w else After(Next(w, steps[0]), steps[1..])
  }

  lemma {:induction false} AfterSafe(w: World, steps: seq<Step>)
    requires Safe(w) && AllEnabled(w, steps)
    ensures Safe(After(w, steps)) && Later(w, After(w, steps))
    decreases |steps|
  {
    if steps != [] {
      StepSafe(w, steps[0]);
      AfterSafe(Next(w, steps[0]), steps[1..]);
      LaterTrans(w, Next(w, steps[0]), After(w, steps));
    }
  }

  // ---- what each read shows ----

  function IntentView(i: nat, o: SellOrder): Intent {
    Intent(i, 0, Sell, o.terminal, Some(o.qty), o.filled, if o.known then Some(i) else None, o.client)
  }

  function OrderView(i: nat, o: SellOrder): OrderState {
    OrderState(i, o.client, 0, Sell, 0, Some(o.qty), o.filled)
  }

  /** The local store's sell intents. A terminal one carries its final filled quantity. */
  function IntentsOf(sells: seq<SellOrder>): seq<Intent> {
    if sells == [] then []
    else
      var n := |sells| - 1;
      IntentsOf(sells[..n]) + (if sells[n].external then [] else [IntentView(n, sells[n])])
  }

  /** The broker's open orders. */
  function OpenOrders(sells: seq<SellOrder>): seq<OrderState> {
    if sells == [] then []
    else
      var n := |sells| - 1;
      OpenOrders(sells[..n]) + (if sells[n].open then [OrderView(n, sells[n])] else [])
  }

  function OpenIds(sells: seq<SellOrder>): seq<nat> {
    if sells == [] then []
    else var n := |sells| - 1; OpenIds(sells[..n]) + (if sells[n].open then [n] else [])
  }

  function SettledView(sells: seq<SellOrder>): map<nat, real> {
    map i | 0 <= i < |sells| :: sells[i].settled
  }

  /** The dictionary of one read: exactly the open orders, each as it stands. */
  ghost predicate Lists(first: map<nat, OrderState>, sells: seq<SellOrder>) {
    && (forall i :: i in first <==> 0 <= i < |sells| && sells[i].open)
    && (forall i :: i in first ==> first[i] == OrderView(i, sells[i]))
  }

  lemma ListsOneMore(first: map<nat, OrderState>, sells: seq<SellOrder>)
    requires sells != [] && Lists(first, sells[..|sells| - 1])
    ensures var n := |sells| - 1;
            n !in first && Lists(if sells[n].open then first[n := OrderView(n, sells[n])] else first, sells)
  {
    assert forall i :: 0 <= i < |sells| - 1 ==> sells[..|sells| - 1][i] == sells[i];
  }

  lemma {:induction false} ReadsTheOpenOrders(sells: seq<SellOrder>)
    ensures Lists(SellsOf(0, OpenOrders(sells)), sells) && IdsOf(0, OpenOrders(sells)) == OpenIds(sells)
  {
    hide Lists;
    if sells == [] {
      assert Lists(map[], []) by { ListsNothing(); }
    } else {
      var n := |sells| - 1;
      ReadsTheOpenOrders(sells[..n]);
      ListsOneMore(SellsOf(0, OpenOrders(sells[..n])), sells);
      var rest := OpenOrders(sells[..n]);
      if sells[n].open {
        OneMoreOrder(rest, OrderView(n, sells[n]));
        assert OpenOrders(sells) == rest + [OrderView(n, sells[n])];
        assert OpenIds(sells) == OpenIds(sells[..n]) + [n];
        assert n !in SellsOf(0, rest);
        assert IdsOf(0, OpenOrders(sells)) == OpenIds(sells);
        assert SellsOf(0, OpenOrders(sells)) == SellsOf(0, rest)[n := OrderView(n, sells[n])];
      } else {
        assert OpenOrders(sells) == rest;
      }
    }
  }

  lemma ListsNothing()
    ensures Lists(map[], [])
  {
  }

  lemma {:induction false} OneMoreOrder(orders: seq<OrderState>, o: OrderState)
    requires Selected(0, o)
    ensures SellsOf(0, orders + [o]) == SellsOf(0, orders)[o.id := o]
    ensures IdsOf(0, orders + [o]) == IdsOf(0, orders) + (if o.id in SellsOf(0, orders) then [] else [o.id])
  {
    assert (orders + [o])[..|orders|] == orders;
  }

  lemma {:induction false} OneMoreClient(first: map<nat, OrderState>, ids: seq<nat>, id: nat)
    requires id in first && forall x :: x in ids ==> x in first
    ensures ByClient(first, ids + [id]) == ByClient(first, ids)[first[id].client := id]
  {
    assert (ids + [id])[..|ids|] == ids;
  }

  lemma {:induction false} OpenIdsAre(sells: seq<SellOrder>)
    ensures forall i :: i in OpenIds(sells) <==> 0 <= i < |sells| && sells[i].open
  {
    if sells != [] { OpenIdsAre(sells[..|sells| - 1]); }
  }

  /** Under its client id an own order is found exactly when it is open. */
  ghost predicate Finds(m: map<Option<nat>, nat>, sells: seq<SellOrder>, i: nat, client: Option<nat>)
  {
    if i < |sells| && sells[i].open then client in m && m[client] == i else client !in m
  }

  lemma FindsOneMore(m: map<Option<nat>, nat>, sells: seq<SellOrder>, i: nat, client: Option<nat>)
    requires sells != [] && Finds(m, sells[..|sells| - 1], i, client)
    requires sells[|sells| - 1].client == client <==> i == |sells| - 1
    ensures var n := |sells| - 1; Finds(if sells[n].open then m[sells[n].client := n] else m, sells, i, client)
  {
  }

  lemma {:induction false} OwnClientFinds(first: map<nat, OrderState>, sells: seq<SellOrder>, i: nat,
                                          client: Option<nat>)
    requires forall k :: 0 <= k < |sells| ==> (sells[k].client == client <==> k == i)
    requires forall k :: 0 <= k < |sells| && sells[k].open ==> k in first && first[k] == OrderView(k, sells[k])
    requires forall k :: k in OpenIds(sells) ==> k in first
    ensures Finds(ByClient(first, OpenIds(sells)), sells, i, client)
  {
    if sells != [] {
      var n := |sells| - 1;
      OpenIdsAre(sells);
      OpenIdsAre(sells[..n]);
      assert forall k :: 0 <= k < n ==> sells[..n][k] == sells[k];
      OwnClientFinds(first, sells[..n], i, client);
      FindsOneMore(ByClient(first, OpenIds(sells[..n])), sells, i, client);
      if sells[n].open {
        assert OpenIds(sells) == OpenIds(sells[..n]) + [n];
        OneMoreClient(first, OpenIds(sells[..n]), n);
        assert ByClient(first, OpenIds(sells)) == ByClient(first, OpenIds(sells[..n]))[sells[n].client := n];
      } else {
        assert OpenIds(sells) == OpenIds(sells[..n]);
      }
    }
  }

  // ---- one authorization ----

  /** The worlds at which intents, settlements, lots, open orders, positions and open orders again were read, and at
      which the order is sent. */
  datatype Moments = Moments(intents: World, settled: World, lots: World, first: World, held: World, second: World,
                             sent: World)

  ghost predicate InOrder(m: Moments) {
    && Safe(m.intents) && Safe(m.settled) && Safe(m.lots) && Safe(m.first) && Safe(m.held) && Safe(m.second)
       && Safe(m.sent)
    && Later(m.intents, m.settled) && Later(m.settled, m.lots) && Later(m.lots, m.first) && Later(m.first, m.held)
    && Later(m.held, m.second) && Later(m.second, m.sent)
  }

  /** An external sell opened after the first order read shows in the second, or is gone unfilled by the time of
      sending. */
  predicate NothingSlipsPast(m: Moments) {
    forall j :: |m.first.sells| <= j < |m.sent.sells| ==>
      (j < |m.second.sells| && m.second.sells[j].open) || (!m.sent.sells[j].open && m.sent.sells[j].filled == 0.0)
  }

  function PendingOf(m: Moments): Result<seq<PendingSell>, Reason> {
    BuildPending(0, OpenOrders(m.first.sells), OpenOrders(m.second.sells), IntentsOf(m.intents.sells),
                 SettledView(m.settled.sells))
  }

  predicate PendingAt(sells: seq<SellOrder>, settled: map<nat, real>, i: nat)
    requires i < |sells|
  {
    !sells[i].external && Pending(0, IntentView(i, sells[i]), settled)
  }

  /** What one own order adds to the local bound's deduction. */
  function OwnLocal(sells: seq<SellOrder>, settled: map<nat, real>): int -> real {
    i => if 0 <= i < |sells| && PendingAt(sells, settled, i) then sells[i].qty - SettledOf(settled, i) else 0.0
  }

  function OwnBroker(sells: seq<SellOrder>, settled: map<nat, real>): int -> real {
    i => if 0 <= i < |sells| && PendingAt(sells, settled, i) then sells[i].qty else 0.0
  }

  /** What one open external order adds to either deduction. */
  function ExternalOpen(sells: seq<SellOrder>): int -> real {
    j => if 0 <= j < |sells| && sells[j].open && sells[j].external then sells[j].qty else 0.0
  }

  /** An own intent's order is itself or, before the broker has it, nothing. */
  ghost predicate Resolves(sells: seq<SellOrder>, first: map<nat, OrderState>, byClient: map<Option<nat>, nat>) {
    forall i :: 0 <= i < |sells| && !sells[i].external ==> ResolvesAt(sells, first, byClient, i)
  }

  predicate ResolvesAt(sells: seq<SellOrder>, first: map<nat, OrderState>, byClient: map<Option<nat>, nat>, i: nat)
    requires i < |sells|
  {
    var order := Resolved(IntentView(i, sells[i]), byClient);
    && (order.None? || order == Some(i)) && sells[i].qty > 0.0
    && (i in first ==> order == Some(i) && OrderQty(first[i]) == Some(sells[i].qty))
  }

  lemma {:induction false} OneMoreIntent(first: map<nat, OrderState>, byClient: map<Option<nat>, nat>,
                                         intents: seq<Intent>, i: Intent, settled: map<nat, real>)
    requires Readable(first) && Sized(0, intents, settled) && i.requested.Some? && i.requested.value > 0.0
    ensures var order := Resolved(i, byClient);
            && Sized(0, intents + [i], settled)
            && OwnMembers(0, first, byClient, intents + [i], settled)
               == (var rest := OwnMembers(0, first, byClient, intents, settled);
                   if Pending(0, i, settled) then rest + [MemberOf(first, i, order, SettledOf(settled, i.id))]
                     else rest)
            && Claimed(0, byClient, intents + [i], settled)
               == Claimed(0, byClient, intents, settled)
                 + (if Pending(0, i, settled) && order.Some? then {order.value} else {})
  {
    assert (intents + [i])[..|intents|] == intents;
  }

  /** The intents' part of both deductions is a sum over own orders, and the orders they claim are their own. */
  ghost predicate OwnAgree(sells: seq<SellOrder>, k: nat, first: map<nat, OrderState>, byClient: map<Option<nat>, nat>,
                           settled: map<nat, real>, intents: seq<Intent>)
    requires Readable(first) && k <= |sells|
  {
    && Sized(0, intents, settled)
    && LocalOwed(OwnMembers(0, first, byClient, intents, settled)) == Total(k, OwnLocal(sells, settled))
    && BrokerOwed(OwnMembers(0, first, byClient, intents, settled)) == Total(k, OwnBroker(sells, settled))
    && ClaimsOwn(sells, k, first, settled, Claimed(0, byClient, intents, settled))
  }

  ghost predicate ClaimsOwn(sells: seq<SellOrder>, k: nat, first: map<nat, OrderState>, settled: map<nat, real>,
                            claimed: set<nat>)
    requires k <= |sells|
  {
    && (forall id :: id in claimed ==> id < k && !sells[id].external)
    && (forall id :: 0 <= id < k && PendingAt(sells, settled, id) && id in first ==> id in claimed)
  }

  lemma {:induction false} OwnDeductions(sells: seq<SellOrder>, k: nat, first: map<nat, OrderState>,
                                         byClient: map<Option<nat>, nat>, settled: map<nat, real>)
    requires Readable(first) && Resolves(sells, first, byClient) && k <= |sells|
    ensures OwnAgree(sells, k, first, byClient, settled, IntentsOf(sells[..k]))
  {
    if k == 0 {
      assert sells[..0] == [];
    } else {
      hide OwnAgree, IntentsOf;
      var n := k - 1;
      OneMoreOwn(sells, k);
      OwnDeductions(sells, n, first, byClient, settled);
      if sells[n].external {
        ExternalStepsOver(sells, n, first, byClient, settled, IntentsOf(sells[..n]));
      } else {
        assert ResolvesAt(sells, first, byClient, n);
        OwnSteps(sells, n, first, byClient, settled, IntentsOf(sells[..n]));
      }
    }
  }

  lemma ExternalStepsOver(sells: seq<SellOrder>, n: nat, first: map<nat, OrderState>, byClient: map<Option<nat>, nat>,
                          settled: map<nat, real>, rest: seq<Intent>)
    requires Readable(first) && n < |sells| && sells[n].external && OwnAgree(sells, n, first, byClient, settled, rest)
    ensures OwnAgree(sells, n + 1, first, byClient, settled, rest)
  {
    hide OwnMembers, Claimed, LocalOwed, BrokerOwed, Total, OwnLocal, OwnBroker;
    ExternalOwesNothing(sells, settled, n);
    TotalNext(n, OwnLocal(sells, settled));
    TotalNext(n, OwnBroker(sells, settled));
  }

  lemma OwnSteps(sells: seq<SellOrder>, n: nat, first: map<nat, OrderState>, byClient: map<Option<nat>, nat>,
                 settled: map<nat, real>, rest: seq<Intent>)
    requires Readable(first) && n < |sells| && !sells[n].external && ResolvesAt(sells, first, byClient, n)
    requires OwnAgree(sells, n, first, byClient, settled, rest)
    ensures OwnAgree(sells, n + 1, first, byClient, settled, rest + [IntentView(n, sells[n])])
  {
    hide OwnMembers, Claimed, LocalOwed, BrokerOwed, Total, OwnLocal, OwnBroker, Pending, ResolvesAt, Sized;
    OwnStep(sells, n, first, byClient, settled, rest);
    TotalNext(n, OwnLocal(sells, settled));
    TotalNext(n, OwnBroker(sells, settled));
  }

  lemma ExternalOwesNothing(sells: seq<SellOrder>, settled: map<nat, real>, n: nat)
    requires n < |sells| && sells[n].external
    ensures OwnLocal(sells, settled)(n) == 0.0 && OwnBroker(sells, settled)(n) == 0.0
  {
  }

  lemma OneMoreOwn(sells: seq<SellOrder>, k: nat)
    requires 0 < k <= |sells|
    ensures var rest := IntentsOf(sells[..k - 1]);
            IntentsOf(sells[..k]) == if sells[k - 1].external then rest else rest + [IntentView(k - 1, sells[k - 1])]
  {
    assert sells[..k][..k - 1] == sells[..k - 1];
  }

  lemma {:induction false} OwnStep(sells: seq<SellOrder>, n: nat, first: map<nat, OrderState>,
                                   byClient: map<Option<nat>, nat>, settled: map<nat, real>, rest: seq<Intent>)
    requires Readable(first) && n < |sells| && !sells[n].external && ResolvesAt(sells, first, byClient, n)
             && Sized(0, rest, settled)
    ensures var all := rest + [IntentView(n, sells[n])];
            && Sized(0, all, settled)
            && LocalOwed(OwnMembers(0, first, byClient, all, settled))
               == LocalOwed(OwnMembers(0, first, byClient, rest, settled)) + OwnLocal(sells, settled)(n)
            && BrokerOwed(OwnMembers(0, first, byClient, all, settled))
               == BrokerOwed(OwnMembers(0, first, byClient, rest, settled)) + OwnBroker(sells, settled)(n)
            && (forall id :: id in Claimed(0, byClient, all, settled) ==>
               id in Claimed(0, byClient, rest, settled) || id == n)
            && Claimed(0, byClient, rest, settled) <= Claimed(0, byClient, all, settled)
            && (PendingAt(sells, settled, n) && n in first ==> n in Claimed(0, byClient, all, settled))
  {
    hide OwnMembers, Claimed, LocalOwed, BrokerOwed;
    var i := IntentView(n, sells[n]);
    OneMoreIntent(first, byClient, rest, i, settled);
    if PendingAt(sells, settled, n) {
      var x := MemberOf(first, i, Resolved(i, byClient), SettledOf(settled, n));
      OneMember(OwnMembers(0, first, byClient, rest, settled), x);
      assert LocalTerm(x) == OwnLocal(sells, settled)(n) && x.original == OwnBroker(sells, settled)(n);
    }
  }

  lemma {:induction false} OneMoreExternal(first: map<nat, OrderState>, ids: seq<nat>, id: nat, claimed: set<nat>)
    requires Readable(first) && id in first && forall x :: x in ids ==> x in first
    ensures ExternalMembers(first, ids + [id], claimed)
            == var rest := ExternalMembers(first, ids, claimed);
               if id in claimed then rest else rest + [PendingSell(ByOrder(id), OrderQty(first[id]).value, None)]
  {
    assert (ids + [id])[..|ids|] == ids;
  }

  /** The unclaimed orders' part is a sum over open external orders. */
  lemma {:induction false} ExternalDeductions(sells: seq<SellOrder>, k: nat, first: map<nat, OrderState>,
                                              claimed: set<nat>)
    requires Readable(first) && Lists(first, sells) && k <= |sells|
    requires forall j :: 0 <= j < |sells| && sells[j].open ==> (j in claimed <==> !sells[j].external)
    ensures var ids := OpenIds(sells[..k]);
            && (forall x :: x in ids ==> x in first)
            && LocalOwed(ExternalMembers(first, ids, claimed)) == Total(k, ExternalOpen(sells))
            && BrokerOwed(ExternalMembers(first, ids, claimed)) == Total(k, ExternalOpen(sells))
  {
    if k == 0 {
      assert sells[..0] == [];
    } else {
      hide OpenIds, ExternalMembers, LocalOwed, BrokerOwed, ExternalOpen, Total;
      var n := k - 1;
      OneMoreOpen(sells, k);
      ExternalDeductions(sells, n, first, claimed);
      if sells[n].open { ExternalStep(sells, n, first, claimed, OpenIds(sells[..n])); }
    }
  }

  lemma {:induction false} ExternalStep(sells: seq<SellOrder>, n: nat, first: map<nat, OrderState>, claimed: set<nat>,
                                        rest: seq<nat>)
    requires Readable(first) && n < |sells| && sells[n].open && n in first && first[n] == OrderView(n, sells[n])
    requires (n in claimed <==> !sells[n].external) && forall x :: x in rest ==> x in first
    requires LocalOwed(ExternalMembers(first, rest, claimed)) == Total(n, ExternalOpen(sells))
    requires BrokerOwed(ExternalMembers(first, rest, claimed)) == Total(n, ExternalOpen(sells))
    ensures LocalOwed(ExternalMembers(first, rest + [n], claimed)) == Total(n + 1, ExternalOpen(sells))
    ensures BrokerOwed(ExternalMembers(first, rest + [n], claimed)) == Total(n + 1, ExternalOpen(sells))
  {
    var f := ExternalOpen(sells);
    assert Total(n + 1, f) == Total(n, f) + f(n);
    OneMoreExternal(first, rest, n, claimed);
    if sells[n].external {
      OneMember(ExternalMembers(first, rest, claimed), PendingSell(ByOrder(n), OrderQty(first[n]).value, None));
    }
  }

  lemma OneMoreOpen(sells: seq<SellOrder>, k: nat)
    requires 0 < k <= |sells|
    ensures OpenIds(sells[..k])
         == if sells[k - 1].open then OpenIds(sells[..k - 1]) + [k - 1] else OpenIds(sells[..k - 1])
  {
    assert sells[..k][..k - 1] == sells[..k - 1];
  }

  // ---- what one authorization knows of each order ----

  lemma GrewAt(a: World, b: World, i: nat)
    requires Later(a, b) && i < |a.sells|
    ensures |a.sells| <= |b.sells| && Grew(a.sells[i], b.sells[i])
  {
  }

  lemma LaterMoments(m: Moments)
    requires InOrder(m)
    ensures Later(m.intents, m.lots) && Later(m.intents, m.first) && Later(m.intents, m.held)
            && Later(m.intents, m.sent)
    ensures Later(m.lots, m.sent) && Later(m.first, m.second) && Later(m.first, m.sent) && Later(m.held, m.sent)
  {
    hide Later, Safe;
    LaterTrans(m.held, m.second, m.sent);
    LaterTrans(m.first, m.held, m.second);
    LaterTrans(m.first, m.held, m.sent);
    LaterTrans(m.lots, m.first, m.sent);
    LaterTrans(m.intents, m.settled, m.lots);
    LaterTrans(m.intents, m.lots, m.first);
    LaterTrans(m.intents, m.first, m.held);
    LaterTrans(m.intents, m.held, m.sent);
  }

  lemma ReadResolves(m: Moments)
    requires InOrder(m)
    ensures var first := SellsOf(0, OpenOrders(m.first.sells));
            Resolves(m.intents.sells, first, ByClient(first, IdsOf(0, OpenOrders(m.first.sells))))
  {
    hide Later, Safe, ByClient, SellsOf, IdsOf, OpenOrders, OpenIds, ResolvesAt, Lists;
    LaterMoments(m);
    var sells := m.first.sells;
    ReadsTheOpenOrders(sells);
    forall i | 0 <= i < |m.intents.sells| && !m.intents.sells[i].external
      ensures ResolvesAt(m.intents.sells, SellsOf(0, OpenOrders(sells)),
              ByClient(SellsOf(0, OpenOrders(sells)), OpenIds(sells)), i)
    {
      GrewAt(m.intents, m.first, i);
      ResolvesOne(m.first, m.intents.sells, i, SellsOf(0, OpenOrders(sells)));
    }
  }

  lemma {:induction false} ResolvesOne(w: World, sells: seq<SellOrder>, i: nat, first: map<nat, OrderState>)
    requires Safe(w) && i < |sells| && i < |w.sells| && !sells[i].external && Grew(sells[i], w.sells[i])
             && Lists(first, w.sells)
    requires forall k :: k in OpenIds(w.sells) ==> k in first
    ensures ResolvesAt(sells, first, ByClient(first, OpenIds(w.sells)), i)
  {
    hide ByClient, OpenIds, Free;
    assert SellOk(w.sells[i]);
    forall k | 0 <= k < |w.sells| ensures w.sells[k].client == sells[i].client <==> k == i {
      assert k != i ==> w.sells[i].client != w.sells[k].client;
    }
    OwnClientFinds(first, w.sells, i, sells[i].client);
  }

  /** An own order still open at the first order read was pending when the intents were read. */
  lemma OpenMeansPending(m: Moments, j: nat)
    requires InOrder(m) && j < |m.first.sells| && m.first.sells[j].open && !m.first.sells[j].external
    ensures j < |m.intents.sells| && PendingAt(m.intents.sells, SettledView(m.settled.sells), j)
  {
    LaterMoments(m);
    if j < |m.intents.sells| { GrewAt(m.intents, m.first, j); }
  }

  function Settlements(m: Moments): map<nat, real> { SettledView(m.settled.sells) }

  lemma Deductions(m: Moments)
    requires InOrder(m) && PendingOf(m).Ok?
    ensures var own, external := |m.intents.sells|, Total(|m.first.sells|, ExternalOpen(m.first.sells));
            && LocalOwed(PendingOf(m).value) == Total(own, OwnLocal(m.intents.sells, Settlements(m))) + external
            && BrokerOwed(PendingOf(m).value) == Total(own, OwnBroker(m.intents.sells, Settlements(m))) + external
  {
    hide LocalOwed, BrokerOwed, Total, OwnLocal, OwnBroker, ExternalOpen, Later, Safe, SellsOf, IdsOf, ByClient,
      OpenOrders, IntentsOf, OwnMembers, ExternalMembers, Claimed, Resolves, Stable, Pending;
    var sells := m.first.sells;
    var settled := SettledView(m.settled.sells);
    var first, ids := SellsOf(0, OpenOrders(sells)), IdsOf(0, OpenOrders(sells));
    var byClient := ByClient(first, ids);
    var intents := IntentsOf(m.intents.sells);
    var claimed := Claimed(0, byClient, intents, settled);
    ReadResolves(m);
    ReadsTheOpenOrders(sells);
    assert m.intents.sells[..|m.intents.sells|] == m.intents.sells && sells[..|sells|] == sells;
    OwnDeductions(m.intents.sells, |m.intents.sells|, first, byClient, settled);
    forall j | 0 <= j < |sells| && sells[j].open ensures j in claimed <==> !sells[j].external {
      ClaimedIffOwn(m, j, first, claimed);
    }
    ExternalDeductions(sells, |sells|, first, claimed);
    OwedAppend(OwnMembers(0, first, byClient, intents, settled), ExternalMembers(first, ids, claimed));
  }

  lemma ClaimedIffOwn(m: Moments, j: nat, first: map<nat, OrderState>, claimed: set<nat>)
    requires InOrder(m) && j < |m.first.sells| && m.first.sells[j].open && Lists(first, m.first.sells)
    requires ClaimsOwn(m.intents.sells, |m.intents.sells|, first, SettledView(m.settled.sells), claimed)
    ensures j in claimed <==> !m.first.sells[j].external
  {
    LaterMoments(m);
    hide Later, Safe;
    if m.first.sells[j].external {
      if j in claimed { GrewAt(m.intents, m.first, j); }
    } else {
      OpenMeansPending(m, j);
    }
  }

  // ---- the two bounds ----

  /** Every external sell already closed at the first order read is accounted for by the lots that were read. */
  predicate Accounted(m: Moments) {
    forall j :: 0 <= j < |m.first.sells| && m.first.sells[j].external && !m.first.sells[j].open ==>
      Settled(m.lots)(j) >= m.first.sells[j].filled
  }

  /** Fills of orders in the pending set, the only ones the positions read may lag behind. */
  function SeenFills(m: Moments): int -> real {
    i => if 0 <= i < |m.held.sells|
            && ((i < |m.first.sells| && m.first.sells[i].open)
                || (i < |m.intents.sells| && PendingAt(m.intents.sells, Settlements(m), i)))
         then m.held.sells[i].filled else 0.0
  }

  /** The positions read is current but for fills of pending orders, and at most those. */
  predicate PositionCovered(m: Moments, held: real) {
    held <= m.held.position + Total(|m.held.sells|, SeenFills(m))
  }

  /** Stable reads leave unseen only orders that came to nothing. */
  lemma UnseenCameToNothing(m: Moments)
    requires InOrder(m) && PendingOf(m).Ok? && NothingSlipsPast(m)
    ensures |m.first.sells| <= |m.held.sells| <= |m.sent.sells|
    ensures forall j :: |m.first.sells| <= j < |m.sent.sells| ==> !m.sent.sells[j].open && m.sent.sells[j].filled == 0.0
  {
    hide Safe, OwnMembers, ExternalMembers, Claimed, ByClient, IdsOf, Sized;
    LaterMoments(m);
    ReadsTheOpenOrders(m.first.sells);
    ReadsTheOpenOrders(m.second.sells);
    var first, second := SellsOf(0, OpenOrders(m.first.sells)), SellsOf(0, OpenOrders(m.second.sells));
    assert first.Keys == second.Keys;
    forall j | 0 <= j < |m.second.sells| && m.second.sells[j].open ensures j < |m.first.sells| {
      assert j in second;
      assert j in first;
    }
  }

  lemma LocalPointwise(m: Moments, i: nat)
    requires InOrder(m) && Accounted(m) && i < |m.first.sells| <= |m.sent.sells|
    ensures Fills(m.sent)(i) + Unfilled(m.sent)(i)
         <= Settled(m.lots)(i) + (OwnLocal(m.intents.sells, Settlements(m))(i) + ExternalOpen(m.first.sells)(i))
  {
    hide Later, Safe, Total;
    LaterMoments(m);
    GrewAt(m.first, m.sent, i);
    if i < |m.lots.sells| { SellIsOk(m.lots, i); }
    if i < |m.intents.sells| {
      GrewAt(m.intents, m.sent, i);
      GrewAt(m.intents, m.settled, i);
      GrewAt(m.settled, m.lots, i);
      SellIsOk(m.intents, i);
    } else {
      LateIsExternal(m, i);
    }
    SellIsOk(m.sent, i);
    SellIsOk(m.first, i);
  }

  lemma SellIsOk(w: World, i: nat)
    requires Safe(w) && i < |w.sells|
    ensures SellOk(w.sells[i])
  {
  }

  lemma LateIsExternal(m: Moments, i: nat)
    requires InOrder(m) && |m.intents.sells| <= i < |m.first.sells|
    ensures m.first.sells[i].external
  {
    LaterMoments(m);
  }

  /** The local bound never exceeds the free position, whatever positions say and however late settlement is. */
  lemma LocalBoundIsSafe(m: Moments)
    requires InOrder(m) && PendingOf(m).Ok? && NothingSlipsPast(m) && Accounted(m)
    ensures m.lots.local - LocalOwed(PendingOf(m).value) <= Free(m.sent)
  {
    hide PendingOf, LocalOwed, BrokerOwed, OwnLocal, ExternalOpen, Total;
    UnseenCameToNothing(m);
    Deductions(m);
    LaterMoments(m);
    var n := |m.sent.sells|;
    var own, ext := OwnLocal(m.intents.sells, Settlements(m)), ExternalOpen(m.first.sells);
    var both := (i: int) => own(i) + ext(i);
    var owed := (i: int) => Settled(m.lots)(i) + both(i);
    var due := (i: int) => Fills(m.sent)(i) + Unfilled(m.sent)(i);
    GrewCounts(m.intents, m.first);
    GrewCounts(m.lots, m.first);
    ExternalEnds(m.first.sells, n);
    OwnLocalEnds(m.intents.sells, Settlements(m), n);
    TotalExtends(|m.lots.sells|, n, Settled(m.lots));
    TotalPlus(n, own, ext, both);
    TotalPlus(n, Settled(m.lots), both, owed);
    TotalPlus(n, Fills(m.sent), Unfilled(m.sent), due);
    forall i | 0 <= i < n ensures due(i) <= owed(i) {
      if i < |m.first.sells| { LocalPointwise(m, i); } else { UnseenLocal(m, i); }
    }
    TotalAtMost(n, due, owed);
    assert m.lots.position + Total(|m.lots.sells|, Fills(m.lots)) <= m.sent.position + Total(n, Fills(m.sent));
  }

  lemma GrewCounts(a: World, b: World)
    requires Later(a, b)
    ensures |a.sells| <= |b.sells|
  {
  }

  lemma {:induction false} OwnLocalEnds(sells: seq<SellOrder>, settled: map<nat, real>, n: nat)
    requires |sells| <= n
    ensures Total(n, OwnLocal(sells, settled)) == Total(|sells|, OwnLocal(sells, settled))
    ensures Total(n, OwnBroker(sells, settled)) == Total(|sells|, OwnBroker(sells, settled))
  {
    TotalExtends(|sells|, n, OwnLocal(sells, settled));
    TotalExtends(|sells|, n, OwnBroker(sells, settled));
  }

  lemma {:induction false} ExternalEnds(sells: seq<SellOrder>, n: nat)
    requires |sells| <= n
    ensures Total(n, ExternalOpen(sells)) == Total(|sells|, ExternalOpen(sells))
  {
    TotalExtends(|sells|, n, ExternalOpen(sells));
  }

  lemma {:induction false} HeldEnds(m: Moments, n: nat)
    requires |m.held.sells| <= n
    ensures Total(n, SeenFills(m)) == Total(|m.held.sells|, SeenFills(m))
    ensures Total(n, Fills(m.held)) == Total(|m.held.sells|, Fills(m.held))
  {
    TotalExtends(|m.held.sells|, n, SeenFills(m));
    TotalExtends(|m.held.sells|, n, Fills(m.held));
  }

  lemma UnseenLocal(m: Moments, i: nat)
    requires InOrder(m) && |m.first.sells| <= i
    ensures Settled(m.lots)(i) == 0.0 && OwnLocal(m.intents.sells, Settlements(m))(i) == 0.0
    ensures ExternalOpen(m.first.sells)(i) == 0.0
  {
    LaterMoments(m);
    GrewCounts(m.intents, m.first);
    GrewCounts(m.lots, m.first);
  }

  lemma BrokerPointwise(m: Moments, i: nat)
    requires InOrder(m) && i < |m.first.sells| <= |m.held.sells| <= |m.sent.sells|
    ensures Fills(m.sent)(i) + Unfilled(m.sent)(i) + SeenFills(m)(i)
         <= Fills(m.held)(i) + (OwnBroker(m.intents.sells, Settlements(m))(i) + ExternalOpen(m.first.sells)(i))
  {
    LaterMoments(m);
    hide Later;
    GrewAt(m.first, m.sent, i);
    GrewAt(m.first, m.held, i);
    GrewAt(m.held, m.sent, i);
    assert SellOk(m.sent.sells[i]) && SellOk(m.first.sells[i]) && SellOk(m.held.sells[i]);
    if i < |m.intents.sells| {
      GrewAt(m.intents, m.sent, i);
      GrewAt(m.intents, m.first, i);
      GrewAt(m.intents, m.held, i);
      assert SellOk(m.intents.sells[i]);
    } else {
      LateIsExternal(m, i);
    }
  }

  lemma UnseenFills(m: Moments, i: nat)
    requires InOrder(m) && |m.first.sells| <= i < |m.sent.sells| && m.sent.sells[i].filled == 0.0
    ensures Fills(m.held)(i) >= 0.0 && SeenFills(m)(i) == 0.0 && OwnBroker(m.intents.sells, Settlements(m))(i) == 0.0
    ensures ExternalOpen(m.first.sells)(i) == 0.0
  {
    LaterMoments(m);
    GrewCounts(m.intents, m.first);
    if i < |m.held.sells| { SellIsOk(m.held, i); }
  }

  /** The broker bound never exceeds the free position when positions lag only behind orders it can see. */
  lemma BrokerBoundIsSafe(m: Moments, held: real)
    requires InOrder(m) && PendingOf(m).Ok? && NothingSlipsPast(m) && PositionCovered(m, held)
    ensures held - BrokerOwed(PendingOf(m).value) <= Free(m.sent)
  {
    hide PendingOf, LocalOwed, BrokerOwed, OwnBroker, ExternalOpen, Total, SeenFills;
    UnseenCameToNothing(m);
    Deductions(m);
    LaterMoments(m);
    var n := |m.sent.sells|;
    var own, ext := OwnBroker(m.intents.sells, Settlements(m)), ExternalOpen(m.first.sells);
    var both := (i: int) => own(i) + ext(i);
    var owed := (i: int) => Fills(m.held)(i) + both(i);
    var due := (i: int) => Fills(m.sent)(i) + Unfilled(m.sent)(i);
    var all := (i: int) => due(i) + SeenFills(m)(i);
    GrewCounts(m.intents, m.first);
    ExternalEnds(m.first.sells, n);
    HeldEnds(m, n);
    OwnLocalEnds(m.intents.sells, Settlements(m), n);
    TotalPlus(n, own, ext, both);
    TotalPlus(n, Fills(m.held), both, owed);
    TotalPlus(n, Fills(m.sent), Unfilled(m.sent), due);
    TotalPlus(n, due, SeenFills(m), all);
    forall i | 0 <= i < n ensures all(i) <= owed(i) {
      if i < |m.first.sells| { BrokerPointwise(m, i); } else { UnseenFills(m, i); }
    }
    TotalAtMost(n, all, owed);
    assert m.held.position + Total(n, Fills(m.held)) <= m.sent.position + Total(n, Fills(m.sent));
  }

  // ---- whole runs ----

  /** One authorization: the evidence, the two bounds, the sized quantity. */
  function Authorize(m: Moments, held: real, requested: real, protective: bool): Result<real, Reason> {
    match PendingOf(m)
    case Err(e) => Err(e)
    case Ok(pending) =>
      match ComputeSellable(Inputs(held, m.lots.local, pending))
      case Err(e) => Err(e)
      case Ok(d) => Ok(SizeSell(d, requested, protective).0)
  }

  /** However stale the reads, no more is authorized than the position free of unfilled sells. */
  lemma AuthorizationIsSafe(m: Moments, held: real, requested: real, protective: bool)
    requires InOrder(m) && NothingSlipsPast(m) && requested > 0.0
    requires Accounted(m) || PositionCovered(m, held)
    ensures var r := Authorize(m, held, requested, protective); r.Ok? ==> 0.0 <= r.value <= Max(0.0, Free(m.sent))
  {
    hide PendingOf, LocalOwed, BrokerOwed, Free, InOrder, NothingSlipsPast, Accounted, PositionCovered;
    if PendingOf(m).Ok? {
      if Accounted(m) { LocalBoundIsSafe(m); }
      if PositionCovered(m, held) { BrokerBoundIsSafe(m, held); }
    }
  }

  /** A sell attempt: what happens before each read and before the order is sent, the position that was read, the
      request. */
  datatype Attempt = Attempt(
    beforeSettled: seq<Step>, beforeLots: seq<Step>, beforeFirst: seq<Step>, beforeHeld: seq<Step>,
      beforeSecond: seq<Step>, beforeSent: seq<Step>, held: real, requested: real, protective: bool,
    client: Option<nat>)

  datatype Event = Happens(step: Step) | Sells(attempt: Attempt)

  ghost predicate CanHappen(w: World, a: Attempt) {
    AllEnabled(w, a.beforeSettled) &&
    var settled := After(w, a.beforeSettled);
    AllEnabled(settled, a.beforeLots) &&
    var lots := After(settled, a.beforeLots);
    AllEnabled(lots, a.beforeFirst) &&
    var first := After(lots, a.beforeFirst);
    AllEnabled(first, a.beforeHeld) &&
    var held := After(first, a.beforeHeld);
    AllEnabled(held, a.beforeSecond) &&
    var second := After(held, a.beforeSecond);
    AllEnabled(second, a.beforeSent)
  }

  ghost function MomentsOf(w: World, a: Attempt): Moments
    requires CanHappen(w, a)
  {
    var settled := After(w, a.beforeSettled);
    var lots := After(settled, a.beforeLots);
    var first := After(lots, a.beforeFirst);
    var held := After(first, a.beforeHeld);
    var second := After(held, a.beforeSecond);
    Moments(w, settled, lots, first, held, second, After(second, a.beforeSent))
  }

  lemma AttemptInOrder(w: World, a: Attempt)
    requires Safe(w) && CanHappen(w, a)
    ensures InOrder(MomentsOf(w, a)) && MomentsOf(w, a).intents == w
  {
    hide Safe, Later, AllEnabled, After;
    var m := MomentsOf(w, a);
    AfterSafe(w, a.beforeSettled);
    AfterSafe(m.settled, a.beforeLots);
    AfterSafe(m.lots, a.beforeFirst);
    AfterSafe(m.first, a.beforeHeld);
    AfterSafe(m.held, a.beforeSecond);
    AfterSafe(m.second, a.beforeSent);
  }

  /** The evidence hypotheses: nothing external slips in unseen, and either every closed external sell is accounted
      for or the positions read lags only behind pending orders. */
  ghost predicate Allowed(w: World, e: Event) {
    match e
    case Happens(s) => Enabled(w, s)
    case Sells(a) =>
      && CanHappen(w, a) && a.requested > 0.0
      && var m := MomentsOf(w, a);
         NothingSlipsPast(m) && (Accounted(m) || PositionCovered(m, a.held)) && FreshClient(m.sent, a.client)
  }

  /** A refused attempt sends nothing; a sized one is a new own order. */
  ghost function Result(w: World, e: Event): World
    requires Allowed(w, e)
  {
    match e
    case Happens(s) => Next(w, s)
    case Sells(a) =>
      var m := MomentsOf(w, a);
      var r := Authorize(m, a.held, a.requested, a.protective);
      if r.Ok? && r.value > 0.0 then
        m.sent.(sells := m.sent.sells + [SellOrder(false, a.client, r.value, 0.0, true, 0.0, false, false)])
      else m.sent
  }

  ghost predicate AllAllowed(w: World, events: seq<Event>)
    decreases |events|
  {
    events == [] || (Allowed(w, events[0]) && AllAllowed(Result(w, events[0]), events[1..]))
  }

  ghost function Final(w: World, events: seq<Event>): World
    requires AllAllowed(w, events)
    decreases |events|
  {
    if events == [] then w else Final(Result(w, events[0]), events[1..])
  }

  lemma EventIsSafe(w: World, e: Event)
    requires Safe(w) && Allowed(w, e)
    ensures Safe(Result(w, e))
  {
    match e {
      case Happens(s) => StepSafe(w, s);
      case Sells(a) =>
        hide Authorize, Later, Accounted, PositionCovered, NothingSlipsPast, CanHappen, MomentsOf, Inv;
        AttemptInOrder(w, a);
        var m := MomentsOf(w, a);
        AuthorizationIsSafe(m, a.held, a.requested, a.protective);
        var r := Authorize(m, a.held, a.requested, a.protective);
        if r.Ok? && r.value > 0.0 {
          OneSellMore(m.sent, Result(w, e), SellOrder(false, a.client, r.value, 0.0, true, 0.0, false, false));
        }
    }
  }

  /** Never oversold: after any run of fills, cancels, late settlements, external orders and sell attempts, the
      position still covers every sell that is not yet filled. */
  lemma {:induction false} NeverOversold(w: World, events: seq<Event>)
    requires Safe(w) && AllAllowed(w, events)
    ensures var v := Final(w, events); Inv(v) && v.position >= Total(|v.sells|, Unfilled(v)) >= 0.0
    decreases |events|
  {
    hide Allowed, Result, Inv;
    if events == [] {
      assert Total(|w.sells|, Unfilled(w)) >= 0.0 by { UnfilledNotNegative(w); }
    } else {
      EventIsSafe(w, events[0]);
      NeverOversold(Result(w, events[0]), events[1..]);
    }
  }

  lemma UnfilledNotNegative(w: World)
    requires Inv(w)
    ensures Total(|w.sells|, Unfilled(w)) >= 0.0
  {
    var zero := (i: int) => 0.0;
    forall i | 0 <= i < |w.sells| ensures zero(i) <= Unfilled(w)(i) {
      assert SellOk(w.sells[i]);
    }
    TotalAtMost(|w.sells|, zero, Unfilled(w));
    ZeroTotal(|w.sells|, zero);
  }
}
