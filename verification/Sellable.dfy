/** How much may be sold when positions, orders and local settlement are read at different moments: the pending set,
    the two bounds and the sized order. Client ids are `None` where the broker or the store has none, which the code
    folds into one empty string. */
module Sellable {
  import opened Common
  import opened Sums

  datatype Side = Buy | Sell

  /** An open order as the broker lists it. `qty` is `None` for a notional or unreadable quantity. */
  datatype OrderState = OrderState(
    id: nat, client: Option<nat>, asset: nat, side: Side, status: nat, qty: Option<real>, filledQty: real)

  datatype Intent = Intent(
    id: nat, asset: nat, side: Side, terminal: bool, requested: Option<real>, filledQty: real, brokerId: Option<nat>,
    client: Option<nat>)

  datatype Reason = InvalidEvidence | UnstableSnapshot

  datatype Key = ByOrder(id: nat) | ByIntent(id: nat)

  /** `own` is the approved and the settled quantity of a TradePulse sell; an external order has none. */
  datatype PendingSell = PendingSell(key: Key, original: real, own: Option<(real, real)>)

  datatype Inputs = Inputs(brokerQty: real, localLong: real, pending: seq<PendingSell>)

  datatype Decision = Decision(sellable: real, localBound: real, brokerBound: real)

  // ---- the sell orders of one read, as a dictionary ----

  predicate Selected(asset: nat, o: OrderState) { o.side == Sell && o.asset == asset }

  function SellsOf(asset: nat, orders: seq<OrderState>): map<nat, OrderState> {
    if orders == [] then map[]
    else
      var n := |orders| - 1;
      var rest := SellsOf(asset, orders[..n]);
      if Selected(asset, orders[n]) then rest[orders[n].id := orders[n]] else rest
  }

  /** The dictionary's keys in insertion order. */
  function IdsOf(asset: nat, orders: seq<OrderState>): (ids: seq<nat>)
    ensures forall id :: id in ids <==> id in SellsOf(asset, orders)
  {
    if orders == [] then []
    else
      var n := |orders| - 1;
      var rest := IdsOf(asset, orders[..n]);
      if Selected(asset, orders[n]) && orders[n].id !in SellsOf(asset, orders[..n]) then rest + [orders[n].id] else rest
  }

  /** Later entries win. */
  function ByClient(first: map<nat, OrderState>, ids: seq<nat>): map<Option<nat>, nat>
    requires forall id :: id in ids ==> id in first
  {
    if ids == [] then map[]
    else var n := |ids| - 1; ByClient(first, ids[..n])[first[ids[n]].client := ids[n]]
  }

  /** An order's original quantity; anything unreadable is no evidence, never zero. */
  function OrderQty(o: OrderState): Option<real> {
    if o.qty.None? || o.qty.value <= 0.0 || o.filledQty > o.qty.value || o.filledQty < 0.0 then None else o.qty
  }

  predicate Stable(first: map<nat, OrderState>, second: map<nat, OrderState>) {
    && first.Keys == second.Keys
    && forall id :: id in first ==> first[id].status == second[id].status && first[id].filledQty == second[id].filledQty
  }

  predicate Readable(first: map<nat, OrderState>) {
    forall id :: id in first ==> OrderQty(first[id]).Some?
  }

  // ---- members ----

  function SettledOf(settled: map<nat, real>, id: nat): real {
    if id in settled then settled[id] else 0.0
  }

  /** A sell intent of the asset that is not both terminal and fully settled. */
  predicate Pending(asset: nat, i: Intent, settled: map<nat, real>) {
    i.side == Sell && i.asset == asset && !(i.terminal && SettledOf(settled, i.id) >= i.filledQty)
  }

  /** The intent's order in the read, by broker id, else by client id. */
  function Resolved(i: Intent, byClient: map<Option<nat>, nat>): Option<nat> {
    if i.brokerId.Some? then i.brokerId
    else if i.client in byClient then Some(byClient[i.client])
    else None
  }

  function MemberOf(first: map<nat, OrderState>, i: Intent, order: Option<nat>, settled: real): PendingSell
    requires i.requested.Some? && Readable(first)
  {
    PendingSell(if order.Some? then ByOrder(order.value) else ByIntent(i.id),
                if order.Some? && order.value in first then OrderQty(first[order.value]).value else i.requested.value,
                Some((i.requested.value, settled)))
  }

  predicate Sized(asset: nat, intents: seq<Intent>, settled: map<nat, real>) {
    forall i :: i in intents && Pending(asset, i, settled) ==> i.requested.Some? && i.requested.value > 0.0
  }

  function OwnMembers(asset: nat, first: map<nat, OrderState>, byClient: map<Option<nat>, nat>, intents: seq<Intent>,
                      settled: map<nat, real>): seq<PendingSell>
    requires Readable(first) && Sized(asset, intents, settled)
  {
    if intents == [] then []
    else
      var n := |intents| - 1;
      assert intents[n] in intents;
      OwnMembers(asset, first, byClient, intents[..n], settled)
      + (if Pending(asset, intents[n], settled)
         then [MemberOf(first, intents[n], Resolved(intents[n], byClient), SettledOf(settled, intents[n].id))] else [])
  }

  function Claimed(asset: nat, byClient: map<Option<nat>, nat>, intents: seq<Intent>,
                   settled: map<nat, real>): set<nat> {
    if intents == [] then {}
    else
      var n := |intents| - 1;
      var order := Resolved(intents[n], byClient);
      Claimed(asset, byClient, intents[..n], settled)
      + (if Pending(asset, intents[n], settled) && order.Some? then {order.value} else {})
  }

  /** Orders in the read that no pending intent claims. */
  function ExternalMembers(first: map<nat, OrderState>, ids: seq<nat>, claimed: set<nat>): seq<PendingSell>
    requires Readable(first) && forall id :: id in ids ==> id in first
  {
    if ids == [] then []
    else
      var n := |ids| - 1;
      ExternalMembers(first, ids[..n], claimed)
      + (if ids[n] in claimed then [] else [PendingSell(ByOrder(ids[n]), OrderQty(first[ids[n]]).value, None)])
  }

  function BuildPending(asset: nat, orders1: seq<OrderState>, orders2: seq<OrderState>, intents: seq<Intent>,
                        settled: map<nat, real>): Result<seq<PendingSell>, Reason>
  {
    var first := SellsOf(asset, orders1);
    if !Stable(first, SellsOf(asset, orders2)) then Err(UnstableSnapshot)
    else if !Readable(first) || !Sized(asset, intents, settled) then Err(InvalidEvidence)
    else
      var ids := IdsOf(asset, orders1);
      var byClient := ByClient(first, ids);
      Ok(OwnMembers(asset, first, byClient, intents, settled)
         + ExternalMembers(first, ids, Claimed(asset, byClient, intents, settled)))
  }

  method BuildPendingSet(asset: nat, orders1: seq<OrderState>, orders2: seq<OrderState>, intents: seq<Intent>,
                         settled: map<nat, real>) returns (r: Result<seq<PendingSell>, Reason>)
    ensures r == BuildPending(asset, orders1, orders2, intents, settled)
  {
    var first, second := SellsOf(asset, orders1), SellsOf(asset, orders2);
    if !Stable(first, second) { return Err(UnstableSnapshot); }
    if !Readable(first) { return Err(InvalidEvidence); }
    var ids := IdsOf(asset, orders1);
    var byClient := ByClient(first, ids);
    var members: seq<PendingSell>, claimed: set<nat> := [], {};
    for n := 0 to |intents|
      invariant Sized(asset, intents[..n], settled)
      invariant members == OwnMembers(asset, first, byClient, intents[..n], settled)
      invariant claimed == Claimed(asset, byClient, intents[..n], settled)
    {
      var i := intents[n];
      assert intents[..n + 1][..n] == intents[..n] && i in intents;
      if Pending(asset, i, settled) {
        if i.requested.None? || i.requested.value <= 0.0 { return Err(InvalidEvidence); }
        var order := Resolved(i, byClient);
        if order.Some? { claimed := claimed + {order.value}; }
        members := members + [MemberOf(first, i, order, SettledOf(settled, i.id))];
      }
    }
    assert intents[..|intents|] == intents;
    for n := 0 to |ids|
      invariant members == OwnMembers(asset, first, byClient, intents, settled)
                + ExternalMembers(first, ids[..n], claimed)
    {
      assert ids[..n + 1][..n] == ids[..n];
      if ids[n] !in claimed {
        members := members + [PendingSell(ByOrder(ids[n]), OrderQty(first[ids[n]]).value, None)];
      }
    }
    assert ids[..|ids|] == ids;
    r := Ok(members);
  }

  // ---- the two bounds ----

  function LocalTerm(m: PendingSell): real {
    if m.own.Some? then m.own.value.0 - m.own.value.1 else m.original
  }

  function LocalOwed(members: seq<PendingSell>): real {
    if members == [] then 0.0 else LocalOwed(members[..|members| - 1]) + LocalTerm(members[|members| - 1])
  }

  function BrokerOwed(members: seq<PendingSell>): real {
    if members == [] then 0.0 else BrokerOwed(members[..|members| - 1]) + members[|members| - 1].original
  }

  function ComputeSellable(inputs: Inputs): Result<Decision, Reason> {
    if inputs.brokerQty < 0.0 || inputs.localLong < 0.0 then Err(InvalidEvidence)
    else
      var local := inputs.localLong - LocalOwed(inputs.pending);
      var broker := inputs.brokerQty - BrokerOwed(inputs.pending);
      Ok(Decision(Max(0.0, Min(local, broker)), local, broker))
  }

  datatype Note = InsufficientSellable | BelowRequested

  /** A protective exit is reduced to what is sellable; any other sell above it is refused. */
  function SizeSell(d: Decision, requested: real, protective: bool): (r: (real, Option<Note>))
    ensures requested > 0.0 ==> 0.0 <= r.0 <= requested && r.0 <= Max(0.0, d.sellable)
    ensures r.1 == Some(InsufficientSellable) <==> d.sellable <= 0.0 || (requested > d.sellable && !protective)
    ensures r.1 == Some(BelowRequested) <==> 0.0 < d.sellable < requested && protective
    ensures r.1 == Some(InsufficientSellable) ==> r.0 == 0.0
    ensures r.1 != Some(InsufficientSellable) ==> r.0 == Min(requested, d.sellable)
  {
    if d.sellable <= 0.0 then (0.0, Some(InsufficientSellable))
    else if requested <= d.sellable then (requested, None)
    else if protective then (d.sellable, Some(BelowRequested))
    else (0.0, Some(InsufficientSellable))
  }

  lemma {:induction false} OwedAppend(a: seq<PendingSell>, b: seq<PendingSell>)
    ensures LocalOwed(a + b) == LocalOwed(a) + LocalOwed(b)
    ensures BrokerOwed(a + b) == BrokerOwed(a) + BrokerOwed(b)
  {
    if b == [] {
      assert a + b == a;
    } else {
      var n := |b| - 1;
      assert (a + b)[..|a + b| - 1] == a + b[..n];
      OwedAppend(a, b[..n]);
    }
  }

  lemma {:induction false} OneMember(members: seq<PendingSell>, x: PendingSell)
    ensures LocalOwed(members + [x]) == LocalOwed(members) + LocalTerm(x)
    ensures BrokerOwed(members + [x]) == BrokerOwed(members) + x.original
  {
    assert (members + [x])[..|members|] == members;
  }

  // ---- what a read and the pending set hold ----

  predicate ListedAt(asset: nat, orders: seq<OrderState>, k: int, id: nat) {
    0 <= k < |orders| && orders[k].id == id && orders[k].side == Sell && orders[k].asset == asset
  }

  /** A read holds every sell of the asset that is listed, as its last listing shows it, and nothing else. */
  lemma {:induction false} ReadHolds(asset: nat, orders: seq<OrderState>, id: nat)
    ensures id in SellsOf(asset, orders) <==> exists k :: ListedAt(asset, orders, k, id)
    ensures id in SellsOf(asset, orders) ==> exists k ::
              && ListedAt(asset, orders, k, id) && SellsOf(asset, orders)[id] == orders[k]
              && forall later :: ListedAt(asset, orders, later, id) ==> later <= k
  {
    if orders != [] {
      var n := |orders| - 1;
      var rest := orders[..n];
      ReadHolds(asset, rest, id);
      assert forall k :: k < n ==> (ListedAt(asset, rest, k, id) <==> ListedAt(asset, orders, k, id));
      if !ListedAt(asset, orders, n, id) {
        assert forall k :: ListedAt(asset, orders, k, id) ==> ListedAt(asset, rest, k, id);
      }
    }
  }

  /** The intent still has something to sell: it is a sell of the asset, and not both terminal and fully settled. */
  predicate Outstanding(asset: nat, i: Intent, settled: map<nat, real>) {
    && i.side == Sell && i.asset == asset
    && (i.terminal ==> i.filledQty > (if i.id in settled then settled[i.id] else 0.0))
  }

  predicate UnreadableQty(o: OrderState) {
    o.qty.None? || o.qty.value <= 0.0 || o.filledQty < 0.0 || o.filledQty > o.qty.value
  }

  /** The two reads show an order, a status or a filled quantity differently. */
  ghost predicate Differ(first: map<nat, OrderState>, second: map<nat, OrderState>) {
    || (exists id :: id in first && id !in second)
    || (exists id :: id in second && id !in first)
    || exists id :: id in first && id in second
                    && (first[id].status != second[id].status || first[id].filledQty != second[id].filledQty)
  }

  lemma DifferentIsUnstable(first: map<nat, OrderState>, second: map<nat, OrderState>)
    ensures Differ(first, second) <==> !Stable(first, second)
  {
    if !Differ(first, second) {
      assert forall id :: id in first <==> id in second;
    }
  }

  /** Two reads that differ are an unstable snapshot; otherwise an order or an outstanding intent without a readable
      positive quantity is no evidence, and anything else makes a pending set. */
  lemma {:induction false} RefusedExactly(asset: nat, orders1: seq<OrderState>, orders2: seq<OrderState>,
                                          intents: seq<Intent>, settled: map<nat, real>)
    ensures var first, second := SellsOf(asset, orders1), SellsOf(asset, orders2);
            var unreadable := || (exists id :: id in first && UnreadableQty(first[id]))
                              || exists i :: i in intents && Outstanding(asset, i, settled)
                                             && (i.requested.None? || i.requested.value <= 0.0);
            var r := BuildPending(asset, orders1, orders2, intents, settled);
            && (r == Err(UnstableSnapshot) <==> Differ(first, second))
            && (r == Err(InvalidEvidence) <==> !Differ(first, second) && unreadable)
  {
    hide SellsOf, IdsOf, ByClient, OwnMembers, ExternalMembers, Claimed, Differ, Stable;
    DifferentIsUnstable(SellsOf(asset, orders1), SellsOf(asset, orders2));
    assert forall i :: Outstanding(asset, i, settled) <==> Pending(asset, i, settled);
  }

  /** The member stands for the intent: its approved and settled quantities, under the order with its broker id or,
      while the store knows none, a listed order with its client id; without one it is the intent's own. */
  predicate Represents(first: map<nat, OrderState>, settled: map<nat, real>, i: Intent, m: PendingSell) {
    && m.own.Some? && i.requested == Some(m.own.value.0)
    && m.own.value.1 == (if i.id in settled then settled[i.id] else 0.0)
    && match m.key
       case ByOrder(id) =>
         && (i.brokerId == Some(id) || (i.brokerId.None? && id in first && first[id].client == i.client))
         && Some(m.original) == (if id in first then first[id].qty else i.requested)
       case ByIntent(id) =>
         && id == i.id && i.brokerId.None? && Some(m.original) == i.requested
         && forall o :: o in first ==> first[o].client != i.client
  }

  lemma {:induction false} RepresentsItsIntent(first: map<nat, OrderState>, ids: seq<nat>, i: Intent,
                                               settled: map<nat, real>)
    requires Readable(first) && (forall id :: id in ids <==> id in first) && i.requested.Some?
    ensures Represents(first, settled, i, MemberOf(first, i, Resolved(i, ByClient(first, ids)),
              SettledOf(settled, i.id)))
  {
    ByClientIs(first, ids);
  }

  ghost predicate IntentStands(asset: nat, first: map<nat, OrderState>, settled: map<nat, real>, i: Intent,
                               own: seq<PendingSell>) {
    Outstanding(asset, i, settled) ==> exists m :: m in own && Represents(first, settled, i, m)
  }

  ghost predicate MemberStands(asset: nat, first: map<nat, OrderState>, settled: map<nat, real>, intents: seq<Intent>,
                               m: PendingSell) {
    exists i :: i in intents && Outstanding(asset, i, settled) && Represents(first, settled, i, m)
  }

  /** Every outstanding intent has a member that stands for it, and every member stands for one. */
  ghost predicate StandFor(asset: nat, first: map<nat, OrderState>, settled: map<nat, real>, intents: seq<Intent>,
                           own: seq<PendingSell>) {
    && (forall i :: i in intents ==> IntentStands(asset, first, settled, i, own))
    && (forall m :: m in own ==> MemberStands(asset, first, settled, intents, m))
  }

  lemma MoreMembersStand(asset: nat, first: map<nat, OrderState>, settled: map<nat, real>, i: Intent,
                         own: seq<PendingSell>, more: seq<PendingSell>)
    requires IntentStands(asset, first, settled, i, own) || IntentStands(asset, first, settled, i, more)
    ensures IntentStands(asset, first, settled, i, own + more)
  {
    hide Outstanding, Represents;
    assert forall m :: m in own || m in more ==> m in own + more;
  }

  lemma MoreIntentsStand(asset: nat, first: map<nat, OrderState>, settled: map<nat, real>, intents: seq<Intent>,
                         i: Intent, m: PendingSell)
    requires MemberStands(asset, first, settled, intents, m)
             || (Outstanding(asset, i, settled) && Represents(first, settled, i, m))
    ensures MemberStands(asset, first, settled, intents + [i], m)
  {
    hide Outstanding, Represents;
    assert forall x :: x in intents || x == i ==> x in intents + [i];
  }

  lemma OneMoreStands(asset: nat, first: map<nat, OrderState>, settled: map<nat, real>, intents: seq<Intent>,
                      own: seq<PendingSell>, i: Intent, more: seq<PendingSell>)
    requires StandFor(asset, first, settled, intents, own) && IntentStands(asset, first, settled, i, more)
    requires forall m :: m in more ==> Outstanding(asset, i, settled) && Represents(first, settled, i, m)
    ensures StandFor(asset, first, settled, intents + [i], own + more)
  {
    hide Outstanding, Represents, IntentStands, MemberStands;
    forall x | x in intents + [i] ensures IntentStands(asset, first, settled, x, own + more) {
      assert x in intents || x == i;
      MoreMembersStand(asset, first, settled, x, own, more);
    }
    forall m | m in own + more ensures MemberStands(asset, first, settled, intents + [i], m) {
      assert m in own || m in more;
      MoreIntentsStand(asset, first, settled, intents, i, m);
    }
  }

  lemma {:induction false} OwnMembersStandFor(asset: nat, first: map<nat, OrderState>, ids: seq<nat>,
                                              intents: seq<Intent>, settled: map<nat, real>)
    requires Readable(first) && Sized(asset, intents, settled) && forall id :: id in ids <==> id in first
    ensures StandFor(asset, first, settled, intents,
                     OwnMembers(asset, first, ByClient(first, ids), intents, settled))
  {
    hide Represents, MemberOf, Resolved, ByClient, StandFor;
    if intents == [] {
      NothingStands(asset, first, settled);
    } else {
      var n := |intents| - 1;
      var i := intents[n];
      assert i in intents && intents == intents[..n] + [i];
      OwnMembersStandFor(asset, first, ids, intents[..n], settled);
      var rest := OwnMembers(asset, first, ByClient(first, ids), intents[..n], settled);
      var all := OwnMembers(asset, first, ByClient(first, ids), intents, settled);
      if Pending(asset, i, settled) {
        var m := MemberOf(first, i, Resolved(i, ByClient(first, ids)), SettledOf(settled, i.id));
        RepresentsItsIntent(first, ids, i, settled);
        assert m in [m];
        OneMoreStands(asset, first, settled, intents[..n], rest, i, [m]);
        assert all == rest + [m];
      } else {
        OneMoreStands(asset, first, settled, intents[..n], rest, i, []);
        assert all == rest + [];
      }
    }
  }

  lemma NothingStands(asset: nat, first: map<nat, OrderState>, settled: map<nat, real>)
    ensures StandFor(asset, first, settled, [], [])
  {
  }

  lemma {:induction false} ExternalsStandForOrders(first: map<nat, OrderState>, ids: seq<nat>, claimed: set<nat>,
                                                   m: PendingSell)
    requires Readable(first) && (forall id :: id in ids ==> id in first) && m in ExternalMembers(first, ids, claimed)
    ensures m.own.None? && m.key.ByOrder? && m.key.id in first && first[m.key.id].qty == Some(m.original)
  {
    var n := |ids| - 1;
    if m in ExternalMembers(first, ids[..n], claimed) { ExternalsStandForOrders(first, ids[..n], claimed, m); }
  }

  /** The pending set holds a member for every outstanding sell intent of the asset, and every member is one of these or
      an external order at its listed quantity. */
  lemma {:induction false} MembersAre(asset: nat, orders1: seq<OrderState>, orders2: seq<OrderState>,
                                      intents: seq<Intent>, settled: map<nat, real>)
    requires BuildPending(asset, orders1, orders2, intents, settled).Ok?
    ensures var members := BuildPending(asset, orders1, orders2, intents, settled).value;
            var first := SellsOf(asset, orders1);
            && (forall i :: i in intents ==> IntentStands(asset, first, settled, i, members))
            && (forall m :: m in members ==>
                  || MemberStands(asset, first, settled, intents, m)
                  || (m.own.None? && m.key.ByOrder? && m.key.id in first
                      && first[m.key.id].qty == Some(m.original)))
  {
    hide SellsOf, IdsOf, OwnMembers, ExternalMembers, Claimed, ByClient, IntentStands, MemberStands, Stable;
    var first, ids := SellsOf(asset, orders1), IdsOf(asset, orders1);
    var byClient := ByClient(first, ids);
    var own := OwnMembers(asset, first, byClient, intents, settled);
    var external := ExternalMembers(first, ids, Claimed(asset, byClient, intents, settled));
    OwnMembersStandFor(asset, first, ids, intents, settled);
    assert BuildPending(asset, orders1, orders2, intents, settled).value == own + external;
    forall m | m in external
      ensures m.own.None? && m.key.ByOrder? && m.key.id in first && first[m.key.id].qty == Some(m.original)
    {
      ExternalsStandForOrders(first, ids, Claimed(asset, byClient, intents, settled), m);
    }
    forall i | i in intents ensures IntentStands(asset, first, settled, i, own + external) {
      MoreMembersStand(asset, first, settled, i, own, external);
    }
  }

  // ---- what the two bounds and the answer mean ----

  /** What each pending sell still takes by the local record: an own one its approved quantity less what has settled, an
      external one its whole quantity. */
  function Unsettled(pending: seq<PendingSell>): int -> real {
    i => if !(0 <= i < |pending|) then 0.0
         else match pending[i].own
           case Some((approved, settled)) => approved - settled
           case None => pending[i].original
  }

  function Originals(pending: seq<PendingSell>): int -> real {
    i => if 0 <= i < |pending| then pending[i].original else 0.0
  }

  lemma {:induction false} OwedIsATotal(pending: seq<PendingSell>)
    ensures LocalOwed(pending) == Total(|pending|, Unsettled(pending))
    ensures BrokerOwed(pending) == Total(|pending|, Originals(pending))
  {
    if pending != [] {
      var rest := pending[..|pending| - 1];
      OwedIsATotal(rest);
      TotalSame(|rest|, Unsettled(rest), Unsettled(pending));
      TotalSame(|rest|, Originals(rest), Originals(pending));
    }
  }

  /** A quantity may be sold exactly when it fits the local position less what every pending sell still takes and the
      broker's position less what every pending sell was placed for; no quantity may exactly when one of the two is used
      up. Only a negative position is no evidence. */
  lemma SellableIsTheGreatest(inputs: Inputs, x: real)
    ensures ComputeSellable(inputs) == Err(InvalidEvidence) <==> inputs.brokerQty < 0.0 || inputs.localLong < 0.0
    ensures ComputeSellable(inputs).Ok? <==> inputs.brokerQty >= 0.0 && inputs.localLong >= 0.0
    ensures ComputeSellable(inputs).Ok? ==>
              var d, p := ComputeSellable(inputs).value, inputs.pending;
              && d.localBound == inputs.localLong - Total(|p|, Unsettled(p))
              && d.brokerBound == inputs.brokerQty - Total(|p|, Originals(p))
              && d.sellable >= 0.0
              && (d.sellable == 0.0 <==> d.localBound <= 0.0 || d.brokerBound <= 0.0)
              && (x > 0.0 ==> (x <= d.sellable <==> x <= d.localBound && x <= d.brokerBound))
  {
    OwedIsATotal(inputs.pending);
  }

  // ---- each open sell is counted, and counted once ----

  lemma {:induction false} ClaimedHasAMember(asset: nat, first: map<nat, OrderState>, byClient: map<Option<nat>, nat>,
                                             intents: seq<Intent>, settled: map<nat, real>, id: nat)
    requires Readable(first) && Sized(asset, intents, settled)
    ensures id in Claimed(asset, byClient, intents, settled)
            <==> exists m :: m in OwnMembers(asset, first, byClient, intents, settled) && m.key == ByOrder(id)
  {
    if intents != [] {
      var n := |intents| - 1;
      assert intents[n] in intents;
      ClaimedHasAMember(asset, first, byClient, intents[..n], settled, id);
      var rest := OwnMembers(asset, first, byClient, intents[..n], settled);
      var all := OwnMembers(asset, first, byClient, intents, settled);
      assert forall m :: m in rest ==> m in all;
      if Pending(asset, intents[n], settled) {
        var m := MemberOf(first, intents[n], Resolved(intents[n], byClient), SettledOf(settled, intents[n].id));
        assert all == rest + [m] && m in all;
      } else {
        assert all == rest;
      }
    }
  }

  lemma {:induction false} ExternalsAre(first: map<nat, OrderState>, ids: seq<nat>, claimed: set<nat>, id: nat)
    requires Readable(first) && forall x :: x in ids ==> x in first
    ensures id in ids && id !in claimed <==> exists m ::
            m in ExternalMembers(first, ids, claimed) && m.key == ByOrder(id)
  {
    if ids != [] {
      var n := |ids| - 1;
      ExternalsAre(first, ids[..n], claimed, id);
      var rest, all := ExternalMembers(first, ids[..n], claimed), ExternalMembers(first, ids, claimed);
      assert forall m :: m in rest ==> m in all;
      assert ids == ids[..n] + [ids[n]];
      if ids[n] !in claimed {
        var m := PendingSell(ByOrder(ids[n]), OrderQty(first[ids[n]]).value, None);
        assert all == rest + [m] && m in all;
      }
    }
  }

  /** No open sell order escapes the pending set. */
  lemma {:induction false} EveryOpenSellIsCounted(asset: nat, orders1: seq<OrderState>, orders2: seq<OrderState>,
                                                  intents: seq<Intent>, settled: map<nat, real>, id: nat)
    requires BuildPending(asset, orders1, orders2, intents, settled).Ok? && id in SellsOf(asset, orders1)
    ensures exists m :: m in BuildPending(asset, orders1, orders2, intents, settled).value && m.key == ByOrder(id)
  {
    var first, ids := SellsOf(asset, orders1), IdsOf(asset, orders1);
    var byClient := ByClient(first, ids);
    var claimed := Claimed(asset, byClient, intents, settled);
    var own, external := OwnMembers(asset, first, byClient, intents, settled), ExternalMembers(first, ids, claimed);
    ClaimedHasAMember(asset, first, byClient, intents, settled, id);
    ExternalsAre(first, ids, claimed, id);
    if id in claimed {
      var m :| m in own && m.key == ByOrder(id);
      assert m in own + external;
    } else {
      var m :| m in external && m.key == ByOrder(id);
      assert m in own + external;
    }
  }

  // ---- and no order is counted twice ----

  function Keys(members: seq<PendingSell>): seq<Key> {
    seq(|members|, i requires 0 <= i < |members| => members[i].key)
  }

  predicate Distinct(keys: seq<Key>) {
    forall a, b :: 0 <= a < b < |keys| ==> keys[a] != keys[b]
  }

  function KeyOf(i: Intent, byClient: map<Option<nat>, nat>): Key {
    var order := Resolved(i, byClient);
    if order.Some? then ByOrder(order.value) else ByIntent(i.id)
  }

  /** The order, or before the broker has one the intent, that each pending intent stands for. */
  function PendingKeys(asset: nat, byClient: map<Option<nat>, nat>, intents: seq<Intent>,
                       settled: map<nat, real>): seq<Key> {
    if intents == [] then []
    else
      var n := |intents| - 1;
      PendingKeys(asset, byClient, intents[..n], settled)
      + (if Pending(asset, intents[n], settled) then [KeyOf(intents[n], byClient)] else [])
  }

  lemma {:induction false} OwnKeys(asset: nat, first: map<nat, OrderState>, byClient: map<Option<nat>, nat>,
                                   intents: seq<Intent>, settled: map<nat, real>)
    requires Readable(first) && Sized(asset, intents, settled)
    ensures Keys(OwnMembers(asset, first, byClient, intents, settled)) == PendingKeys(asset, byClient, intents, settled)
  {
    if intents != [] {
      var n := |intents| - 1;
      assert intents[n] in intents;
      OwnKeys(asset, first, byClient, intents[..n], settled);
    }
  }

  predicate NoRepeats(ids: seq<nat>) {
    forall a, b :: 0 <= a < b < |ids| ==> ids[a] != ids[b]
  }

  lemma {:induction false} ExternalKeys(first: map<nat, OrderState>, ids: seq<nat>, claimed: set<nat>)
    requires Readable(first) && (forall x :: x in ids ==> x in first) && NoRepeats(ids)
    ensures var keys := Keys(ExternalMembers(first, ids, claimed));
            && Distinct(keys)
            && forall key :: key in keys ==> key.ByOrder? && key.id in ids && key.id !in claimed
  {
    if ids != [] {
      var n := |ids| - 1;
      ExternalKeys(first, ids[..n], claimed);
      var rest := Keys(ExternalMembers(first, ids[..n], claimed));
      var all := Keys(ExternalMembers(first, ids, claimed));
      assert all == rest + (if ids[n] in claimed then [] else [ByOrder(ids[n])]);
      assert ids[n] !in ids[..n];
    }
  }

  lemma {:induction false} IdsDistinct(asset: nat, orders: seq<OrderState>)
    ensures NoRepeats(IdsOf(asset, orders))
  {
    if orders != [] {
      var n := |orders| - 1;
      IdsDistinct(asset, orders[..n]);
      var rest := IdsOf(asset, orders[..n]);
      assert orders[n].id !in SellsOf(asset, orders[..n]) ==> orders[n].id !in rest;
    }
  }

  lemma DistinctParts(a: seq<Key>, b: seq<Key>)
    requires Distinct(b) && forall x :: x in a ==> x !in b
    ensures Distinct(a + b) <==> Distinct(a)
  {
    if Distinct(a + b) {
      forall i, j | 0 <= i < j < |a| ensures a[i] != a[j] {
        assert (a + b)[i] == a[i] && (a + b)[j] == a[j];
      }
    }
    if Distinct(a) {
      forall i, j | 0 <= i < j < |a + b| ensures (a + b)[i] != (a + b)[j] {
        if i < |a| <= j { assert (a + b)[i] in a && (a + b)[j] in b; }
        else if i >= |a| { assert (a + b)[i] == b[i - |a|] && (a + b)[j] == b[j - |a|]; }
      }
    }
  }

  /** Every order and every intent is one member of the pending set, exactly when no two pending intents stand for the
      same order or intent. */
  lemma {:induction false} CountedOnce(asset: nat, orders1: seq<OrderState>, orders2: seq<OrderState>,
                                       intents: seq<Intent>, settled: map<nat, real>)
    requires BuildPending(asset, orders1, orders2, intents, settled).Ok?
    ensures Distinct(Keys(BuildPending(asset, orders1, orders2, intents, settled).value))
            <==> Distinct(PendingKeys(asset, ByClient(SellsOf(asset, orders1), IdsOf(asset, orders1)), intents,
              settled))
  {
    var first, ids := SellsOf(asset, orders1), IdsOf(asset, orders1);
    var byClient := ByClient(first, ids);
    var claimed := Claimed(asset, byClient, intents, settled);
    var own, external := OwnMembers(asset, first, byClient, intents, settled), ExternalMembers(first, ids, claimed);
    OwnKeys(asset, first, byClient, intents, settled);
    IdsDistinct(asset, orders1);
    ExternalKeys(first, ids, claimed);
    assert Keys(own + external) == Keys(own) + Keys(external);
    forall x | x in Keys(own) ensures x !in Keys(external) {
      var i :| 0 <= i < |own| && own[i].key == x;
      if x.ByOrder? { ClaimedHasAMember(asset, first, byClient, intents, settled, x.id); }
    }
    DistinctParts(Keys(own), Keys(external));
  }

  // ---- when an intent claims a stranger's order ----

  /** The order is the intent's own: it has the intent's broker id or, before the store knows one, carries its client
      id. */
  predicate IsOwn(i: Intent, first: map<nat, OrderState>, id: nat) {
    if i.brokerId.Some? then i.brokerId.value == id
    else i.client.Some? && id in first && first[id].client == i.client
  }

  lemma {:induction false} ByClientIs(first: map<nat, OrderState>, ids: seq<nat>)
    requires forall id :: id in ids ==> id in first
    ensures var m := ByClient(first, ids);
            && (forall c :: c in m ==> m[c] in ids && first[m[c]].client == c)
            && (forall id :: id in ids ==> first[id].client in m)
  {
    if ids != [] {
      var n := |ids| - 1;
      ByClientIs(first, ids[..n]);
      assert ids == ids[..n] + [ids[n]];
    }
  }

  /** An intent without a broker id claims an order that is not its own exactly when it has no client id and some
      listed sell has none either. */
  lemma {:induction false} ClaimsAStranger(first: map<nat, OrderState>, ids: seq<nat>, i: Intent)
    requires (forall id :: id in ids ==> id in first) && i.brokerId.None?
    ensures var order := Resolved(i, ByClient(first, ids));
            order.Some? && !IsOwn(i, first, order.value)
            <==> i.client.None? && exists id :: id in ids && first[id].client.None?
  {
    ByClientIs(first, ids);
    if i.client.None? && i.client in ByClient(first, ids) {
      assert first[ByClient(first, ids)[i.client]].client.None?;
    }
  }

  /** Some pending intent without ids meets a listed sell without a client id. */
  predicate NamelessMeet(asset: nat, first: map<nat, OrderState>, intents: seq<Intent>, settled: map<nat, real>) {
    && (exists id :: id in first && first[id].client.None?)
    && exists i :: i in intents && Pending(asset, i, settled) && i.brokerId.None? && i.client.None?
  }

  /** The order an intent stands for, by broker id or by a client id it really has. */
  function OwnOrder(i: Intent, byClient: map<Option<nat>, nat>): Option<nat> {
    if i.brokerId.Some? then i.brokerId
    else if i.client.Some? && i.client in byClient then Some(byClient[i.client])
    else None
  }

  /** What the pending intents may still sell, by the local record. */
  function IntentsLocal(asset: nat, intents: seq<Intent>, settled: map<nat, real>): real
    requires Sized(asset, intents, settled)
  {
    if intents == [] then 0.0
    else
      var n := |intents| - 1;
      assert intents[n] in intents;
      IntentsLocal(asset, intents[..n], settled)
      + (if Pending(asset, intents[n], settled) then intents[n].requested.value - SettledOf(settled, intents[n].id)
        else 0.0)
  }

  /** What the pending intents were placed for: their own listed order's quantity, or the request while none is
      listed. */
  function IntentsBroker(asset: nat, first: map<nat, OrderState>, byClient: map<Option<nat>, nat>, intents: seq<Intent>,
                         settled: map<nat, real>): real
    requires Readable(first) && Sized(asset, intents, settled)
  {
    if intents == [] then 0.0
    else
      var n := |intents| - 1;
      assert intents[n] in intents;
      var order := OwnOrder(intents[n], byClient);
      IntentsBroker(asset, first, byClient, intents[..n], settled)
      + (if !Pending(asset, intents[n], settled) then 0.0
         else if order.Some? && order.value in first then OrderQty(first[order.value]).value
           else intents[n].requested.value)
  }

  function OwnOrders(asset: nat, byClient: map<Option<nat>, nat>, intents: seq<Intent>,
                     settled: map<nat, real>): set<nat> {
    set i | i in intents && Pending(asset, i, settled) && OwnOrder(i, byClient).Some? :: OwnOrder(i, byClient).value
  }

  /** What the listed orders that no pending intent stands for were placed for. */
  function StrangersOwed(first: map<nat, OrderState>, ids: seq<nat>, own: set<nat>): real
    requires Readable(first) && forall id :: id in ids ==> id in first
  {
    if ids == [] then 0.0
    else
      var n := |ids| - 1;
      StrangersOwed(first, ids[..n], own) + (if ids[n] in own then 0.0 else OrderQty(first[ids[n]]).value)
  }

  lemma {:induction false} ExternalsOwe(first: map<nat, OrderState>, ids: seq<nat>, own: set<nat>)
    requires Readable(first) && forall id :: id in ids ==> id in first
    ensures LocalOwed(ExternalMembers(first, ids, own)) == StrangersOwed(first, ids, own)
    ensures BrokerOwed(ExternalMembers(first, ids, own)) == StrangersOwed(first, ids, own)
  {
    if ids != [] {
      var n := |ids| - 1;
      ExternalsOwe(first, ids[..n], own);
      if ids[n] !in own {
        var m := PendingSell(ByOrder(ids[n]), OrderQty(first[ids[n]]).value, None);
        OneMember(ExternalMembers(first, ids[..n], own), m);
        assert ExternalMembers(first, ids, own) == ExternalMembers(first, ids[..n], own) + [m];
      } else {
        assert ExternalMembers(first, ids, own) == ExternalMembers(first, ids[..n], own);
      }
    }
  }

  lemma {:induction false} IntentsOwe(asset: nat, first: map<nat, OrderState>, byClient: map<Option<nat>, nat>,
                                      intents: seq<Intent>, settled: map<nat, real>)
    requires Readable(first) && Sized(asset, intents, settled)
    requires forall i :: i in intents && Pending(asset, i, settled) ==> Resolved(i, byClient) == OwnOrder(i, byClient)
    ensures var own := OwnMembers(asset, first, byClient, intents, settled);
            && LocalOwed(own) == IntentsLocal(asset, intents, settled)
            && BrokerOwed(own) == IntentsBroker(asset, first, byClient, intents, settled)
  {
    hide Pending, Resolved, OwnOrder, OrderQty;
    if intents != [] {
      var n := |intents| - 1;
      assert intents[n] in intents;
      IntentsOwe(asset, first, byClient, intents[..n], settled);
      assert intents == intents[..n] + [intents[n]];
      if Pending(asset, intents[n], settled) {
        var rest := OwnMembers(asset, first, byClient, intents[..n], settled);
        var m := MemberOf(first, intents[n], Resolved(intents[n], byClient), SettledOf(settled, intents[n].id));
        OneMember(rest, m);
        assert OwnMembers(asset, first, byClient, intents, settled) == rest + [m];
      } else {
        assert OwnMembers(asset, first, byClient, intents, settled)
          == OwnMembers(asset, first, byClient, intents[..n], settled);
      }
    }
  }

  lemma {:induction false} IntentsClaim(asset: nat, byClient: map<Option<nat>, nat>, intents: seq<Intent>,
                                        settled: map<nat, real>)
    requires forall i :: i in intents && Pending(asset, i, settled) ==> Resolved(i, byClient) == OwnOrder(i, byClient)
    ensures Claimed(asset, byClient, intents, settled) == OwnOrders(asset, byClient, intents, settled)
  {
    hide Pending, Resolved, OwnOrder;
    if intents != [] {
      var n := |intents| - 1;
      IntentsClaim(asset, byClient, intents[..n], settled);
      assert intents == intents[..n] + [intents[n]] && intents[n] in intents;
    }
  }

  /** Unless an intent without ids meets a listed sell without a client id, each bound deducts every pending sell: every
      pending intent for itself, and every listed order that none of them stands for. */
  lemma {:induction false} EveryPendingSellIsDeducted(asset: nat, orders1: seq<OrderState>, orders2: seq<OrderState>,
                                                      intents: seq<Intent>, settled: map<nat, real>)
    requires BuildPending(asset, orders1, orders2, intents, settled).Ok?
    requires !NamelessMeet(asset, SellsOf(asset, orders1), intents, settled)
    ensures var members := BuildPending(asset, orders1, orders2, intents, settled).value;
            var first, ids := SellsOf(asset, orders1), IdsOf(asset, orders1);
            var byClient := ByClient(first, ids);
            var strangers := StrangersOwed(first, ids, OwnOrders(asset, byClient, intents, settled));
            && LocalOwed(members) == IntentsLocal(asset, intents, settled) + strangers
            && BrokerOwed(members) == IntentsBroker(asset, first, byClient, intents, settled) + strangers
  {
    hide SellsOf, IdsOf, LocalOwed, BrokerOwed, OwnMembers, ExternalMembers, Claimed, ByClient;
    var first, ids := SellsOf(asset, orders1), IdsOf(asset, orders1);
    var byClient := ByClient(first, ids);
    ByClientIs(first, ids);
    forall i | i in intents && Pending(asset, i, settled) ensures Resolved(i, byClient) == OwnOrder(i, byClient) {
      if i.brokerId.None? { ClaimsAStranger(first, ids, i); }
    }
    IntentsOwe(asset, first, byClient, intents, settled);
    IntentsClaim(asset, byClient, intents, settled);
    var own := OwnOrders(asset, byClient, intents, settled);
    ExternalsOwe(first, ids, own);
    OwedAppend(OwnMembers(asset, first, byClient, intents, settled), ExternalMembers(first, ids, own));
  }

  lemma SingleOrder(stray: OrderState)
    requires Selected(stray.asset, stray)
    ensures SellsOf(stray.asset, [stray]) == map[stray.id := stray] && IdsOf(stray.asset, [stray]) == [stray.id]
    ensures ByClient(map[stray.id := stray], [stray.id]) == map[stray.client := stray.id]
  {
    assert [stray][..0] == [] && [stray.id][..0] == [];
    assert SellsOf(stray.asset, []) == map[] && ByClient(map[stray.id := stray], []) == map[];
  }

  /** Without client ids the map confuses orders: an intent with neither a broker id nor a client id claims an
      external order that has no client id, and both bounds then miss one of the two sells. */
  lemma EmptyClientIdHidesAnOrder(stray: OrderState, intent: Intent)
    requires Selected(intent.asset, stray) && OrderQty(stray).Some? && stray.client.None?
    requires Pending(intent.asset, intent, map[]) && intent.brokerId.None? && intent.client.None?
    requires intent.requested.Some? && intent.requested.value > 0.0
    ensures var r := BuildPending(intent.asset, [stray], [stray], [intent], map[]);
            r.Ok? && LocalOwed(r.value) == intent.requested.value && BrokerOwed(r.value) == stray.qty.value
  {
    hide SellsOf, IdsOf, ByClient;
    SingleOrder(stray);
    var first := map[stray.id := stray];
    var byClient: map<Option<nat>, nat> := map[None := stray.id];
    var m := MemberOf(first, intent, Some(stray.id), 0.0);
    assert [intent][..0] == [] && [stray.id][..0] == [] && [m][..0] == [];
    assert OwnMembers(intent.asset, first, byClient, [intent], map[]) == [m];
    assert Claimed(intent.asset, byClient, [intent], map[]) == {stray.id};
    assert ExternalMembers(first, [stray.id], {stray.id}) == [];
    assert [m] + [] == [m];
  }
}
