/** How much of the free position one sell authorization offers when nothing happens between its reads: both bounds to
    the last share, and exactly when they offer all of it. */
module SellableExact {
  import opened Common
  import opened Sellable
  import opened SellableRuns
  import opened Sums

  /** Every read sees the same world. */
  function AtOnce(w: World): Moments { Moments(w, w, w, w, w, w, w) }

  /** What the broker bound withholds beyond the unfilled sells: what a sell it still deducts has filled already, and
      all of an own sell that is over before the store has closed it. */
  function Withheld(w: World): int -> real {
    i => if !(0 <= i < |w.sells|) then 0.0
         else if w.sells[i].open then w.sells[i].filled
         else if !w.sells[i].external && (!w.sells[i].terminal || w.sells[i].settled < w.sells[i].filled)
           then w.sells[i].qty
         else 0.0
  }

  /** What the local bound withholds: the unfilled rest of an own sell that is over before the store has closed it, and
      what an open external sell has settled; it lacks what a closed external sell has not settled yet. */
  function LocallyWithheld(w: World): int -> real {
    i => if !(0 <= i < |w.sells|) then 0.0
         else if w.sells[i].external
           then (if w.sells[i].open then w.sells[i].settled else w.sells[i].settled - w.sells[i].filled)
         else if !w.sells[i].open && (!w.sells[i].terminal || w.sells[i].settled < w.sells[i].filled)
           then w.sells[i].qty - w.sells[i].filled
         else 0.0
  }

  lemma AtOnceInOrder(w: World)
    requires Safe(w)
    ensures InOrder(AtOnce(w))
  {
    hide Total;
    assert Later(w, w);
  }

  /** Two reads of one world are stable, and every order and intent in it is readable. */
  lemma AtOnceIsEvidence(w: World)
    requires Safe(w)
    ensures PendingOf(AtOnce(w)).Ok?
  {
    hide SellsOf, IdsOf, ByClient, OpenOrders, OpenIds, IntentsOf, OwnMembers, ExternalMembers, Claimed, Resolves,
      Total, LocalOwed, BrokerOwed, ClaimsOwn, InOrder;
    AtOnceInOrder(w);
    ReadsTheOpenOrders(w.sells);
    var first := SellsOf(0, OpenOrders(w.sells));
    var byClient := ByClient(first, IdsOf(0, OpenOrders(w.sells)));
    forall id | id in first ensures OrderQty(first[id]).Some? {
      SellIsOk(w, id);
    }
    ReadResolves(AtOnce(w));
    assert w.sells[..|w.sells|] == w.sells;
    OwnDeductions(w.sells, |w.sells|, first, byClient, SettledView(w.sells));
  }

  lemma DeductedAt(w: World, i: nat)
    requires Safe(w) && i < |w.sells|
    ensures var own, external := OwnBroker(w.sells, SettledView(w.sells))(i), ExternalOpen(w.sells)(i);
            own + external == Unfilled(w)(i) + Withheld(w)(i)
    ensures var own, external := OwnLocal(w.sells, SettledView(w.sells))(i), ExternalOpen(w.sells)(i);
            own + external == Unfilled(w)(i) + LocallyWithheld(w)(i) + (Fills(w)(i) - Settled(w)(i))
  {
    hide Total, Free;
    SellIsOk(w, i);
  }

  lemma DeductedInAll(w: World)
    requires Safe(w)
    ensures var n, settled := |w.sells|, SettledView(w.sells);
            && Total(n, OwnBroker(w.sells, settled)) + Total(n, ExternalOpen(w.sells))
               == Total(n, Unfilled(w)) + Total(n, Withheld(w))
            && Total(n, OwnLocal(w.sells, settled)) + Total(n, ExternalOpen(w.sells))
               == Total(n, Unfilled(w)) + Total(n, LocallyWithheld(w)) + Total(n, Fills(w)) - Total(n, Settled(w))
  {
    hide Safe, OwnBroker, OwnLocal, ExternalOpen, Withheld, LocallyWithheld, Unfilled, Fills, Settled, SettledView;
    var n, settled := |w.sells|, SettledView(w.sells);
    var ext := ExternalOpen(w.sells);
    var broker := (i: int) => OwnBroker(w.sells, settled)(i) + ext(i);
    var local := (i: int) => OwnLocal(w.sells, settled)(i) + ext(i);
    var kept := (i: int) => Unfilled(w)(i) + LocallyWithheld(w)(i);
    var filled := (i: int) => kept(i) + Fills(w)(i);
    forall i | 0 <= i < n
      ensures broker(i) == Unfilled(w)(i) + Withheld(w)(i) && filled(i) == local(i) + Settled(w)(i)
    {
      DeductedAt(w, i);
    }
    TotalPlus(n, OwnBroker(w.sells, settled), ext, broker);
    TotalPlus(n, Unfilled(w), Withheld(w), broker);
    TotalPlus(n, OwnLocal(w.sells, settled), ext, local);
    TotalPlus(n, Unfilled(w), LocallyWithheld(w), kept);
    TotalPlus(n, kept, Fills(w), filled);
    TotalPlus(n, local, Settled(w), filled);
  }

  /** With every read at one moment both bounds are the free position less exactly what each withholds. */
  lemma BoundsAtOnce(w: World)
    requires Safe(w)
    ensures PendingOf(AtOnce(w)).Ok?
    ensures var pending, n := PendingOf(AtOnce(w)).value, |w.sells|;
            && w.position - BrokerOwed(pending) == Free(w) - Total(n, Withheld(w))
            && w.local - LocalOwed(pending) == Free(w) - w.unsettledBuys - Total(n, LocallyWithheld(w))
  {
    hide PendingOf, InOrder, LocalOwed, BrokerOwed, Total, OwnBroker, OwnLocal, ExternalOpen, Withheld, LocallyWithheld,
      Unfilled, Fills, Settled;
    AtOnceInOrder(w);
    AtOnceIsEvidence(w);
    Deductions(AtOnce(w));
    DeductedInAll(w);
  }

  // ---- current settlement ----

  predicate SettlementCurrent(w: World) {
    w.unsettledBuys == 0.0 && forall i :: 0 <= i < |w.sells| ==> w.sells[i].settled == w.sells[i].filled
  }

  /** No open sell is partly filled, and the store has closed every own sell that is over. */
  predicate NoneWithheld(w: World) {
    forall i :: 0 <= i < |w.sells| ==>
      if w.sells[i].open then w.sells[i].filled == 0.0 else w.sells[i].external || w.sells[i].terminal
  }

  lemma WithheldIs(w: World, i: nat)
    requires Safe(w) && SettlementCurrent(w) && i < |w.sells|
    ensures 0.0 <= LocallyWithheld(w)(i) <= Withheld(w)(i)
    ensures Withheld(w)(i) == 0.0 <==> if w.sells[i].open then w.sells[i].filled == 0.0
                                       else w.sells[i].external || w.sells[i].terminal
  {
    hide Total, Free;
    SellIsOk(w, i);
  }

  lemma {:induction false} SomeIsPositive(n: nat, f: int -> real, i: nat)
    requires i < n && f(i) > 0.0 && forall k :: 0 <= k < n ==> f(k) >= 0.0
    ensures Total(n, f) > 0.0
  {
    if i == n - 1 {
      var zero := (k: int) => 0.0;
      TotalAtMost(n - 1, zero, f);
      ZeroTotal(n - 1, zero);
    } else {
      SomeIsPositive(n - 1, f, i);
    }
  }

  lemma WithheldInAll(w: World)
    requires Safe(w) && SettlementCurrent(w)
    ensures var n := |w.sells|;
            && 0.0 <= Total(n, LocallyWithheld(w)) <= Total(n, Withheld(w))
            && (Total(n, Withheld(w)) == 0.0 <==> NoneWithheld(w))
  {
    hide Safe, Withheld, LocallyWithheld, SettlementCurrent;
    var n, zero := |w.sells|, (k: int) => 0.0;
    forall i | 0 <= i < n
      ensures 0.0 <= LocallyWithheld(w)(i) <= Withheld(w)(i)
      ensures Withheld(w)(i) == 0.0 <==> if w.sells[i].open then w.sells[i].filled == 0.0
                                         else w.sells[i].external || w.sells[i].terminal
    {
      WithheldIs(w, i);
    }
    TotalAtMost(n, zero, LocallyWithheld(w));
    TotalAtMost(n, LocallyWithheld(w), Withheld(w));
    ZeroTotal(n, zero);
    if NoneWithheld(w) {
      ZeroTotal(n, Withheld(w));
    } else {
      var i :| 0 <= i < n
        && !(if w.sells[i].open then w.sells[i].filled == 0.0 else w.sells[i].external || w.sells[i].terminal);
      SomeIsPositive(n, Withheld(w), i);
    }
  }

  /** What a request gets of a sellable quantity: all it asks for while that fits, otherwise nothing, or for a
      protective one what there is. */
  function Granted(sellable: real, requested: real, protective: bool): real {
    if requested <= sellable then requested else if protective then sellable else 0.0
  }

  /** Once settlement is current, one read of the world offers the free position less what the broker bound
      withholds. */
  lemma OfferAtOnce(w: World, requested: real, protective: bool)
    requires Safe(w) && SettlementCurrent(w) && requested > 0.0
    ensures var offer := Free(w) - Total(|w.sells|, Withheld(w));
            Authorize(AtOnce(w), w.position, requested, protective)
            == if w.position < 0.0 || w.local < 0.0 then Err(InvalidEvidence)
               else Ok(Granted(if offer > 0.0 then offer else 0.0, requested, protective))
  {
    hide PendingOf, LocalOwed, BrokerOwed, Free, Inv, Total, Withheld, LocallyWithheld, NoneWithheld;
    BoundsAtOnce(w);
    WithheldInAll(w);
  }

  lemma PositionsNotNegative(w: World)
    requires Safe(w) && SettlementCurrent(w)
    ensures w.position >= 0.0 && w.local == w.position
  {
    UnfilledNotNegative(w);
    TotalSame(|w.sells|, Fills(w), Settled(w));
  }

  /** With current settlement and nothing between the reads, a request that fits the free position is authorized in full
      and a protective one above it gets exactly the free position, as long as no open sell is partly filled and the
      store has closed every own sell that is over. When that fails, the free position itself is refused. */
  lemma FreePositionIsOffered(w: World, requested: real, protective: bool)
    requires Safe(w) && SettlementCurrent(w) && requested > 0.0
    ensures NoneWithheld(w) ==>
              Authorize(AtOnce(w), w.position, requested, protective) == Ok(Granted(Free(w), requested, protective))
    ensures Free(w) > 0.0 ==>
            (Authorize(AtOnce(w), w.position, Free(w), protective) == Ok(Free(w)) <==> NoneWithheld(w))
  {
    hide Authorize, Inv, Total, Withheld, NoneWithheld, Free;
    PositionsNotNegative(w);
    WithheldInAll(w);
    OfferAtOnce(w, requested, protective);
    if Free(w) > 0.0 { OfferAtOnce(w, Free(w), protective); }
  }

  /** The input for which it fails: one own sell, partly filled and still open, and everything else current. Its fill is
      deducted once more, although it has left the position. */
  lemma PartFillIsWithheld(client: Option<nat>, position: real, qty: real, filled: real)
    requires 0.0 < filled < qty < position
    ensures var w := World(position, 0.0, position, [SellOrder(false, client, qty, filled, true, filled, true, false)]);
            && Safe(w) && SettlementCurrent(w) && Free(w) == position - (qty - filled)
            && Authorize(AtOnce(w), position, Free(w), false) == Ok(0.0)
            && Authorize(AtOnce(w), position, Free(w), true) == Ok(position - qty)
  {
    hide Authorize;
    var w := World(position, 0.0, position, [SellOrder(false, client, qty, filled, true, filled, true, false)]);
    TotalOfOne(Unfilled(w));
    TotalOfOne(Fills(w));
    TotalOfOne(Settled(w));
    TotalOfOne(Withheld(w));
    OfferAtOnce(w, Free(w), false);
    OfferAtOnce(w, Free(w), true);
  }

  lemma TotalOfOne(f: int -> real)
    ensures Total(1, f) == f(0)
  {
    TotalNext(0, f);
  }

  // ---- an attempt with nothing between its reads ----

  predicate Undisturbed(w: World, a: Attempt) {
    && a.beforeSettled == a.beforeLots == a.beforeFirst == a.beforeHeld == a.beforeSecond == a.beforeSent == []
    && a.held == w.position
  }

  /** In a run, an undisturbed attempt with current settlement and nothing withheld is allowed, and sends an order for
      the request, or for the free position where that is less and the request is protective. */
  lemma UndisturbedAttemptSells(w: World, a: Attempt)
    requires Safe(w) && SettlementCurrent(w) && NoneWithheld(w) && Undisturbed(w, a)
    requires a.requested > 0.0 && FreshClient(w, a.client)
    ensures Allowed(w, Sells(a))
    ensures var sold := Granted(Free(w), a.requested, a.protective);
            SellableRuns.Result(w, Sells(a)) == if sold > 0.0
              then w.(sells := w.sells + [SellOrder(false, a.client, sold, 0.0, true, 0.0, false, false)]) else w
  {
    hide Authorize, Free, Inv, NoneWithheld, PositionCovered;
    assert MomentsOf(w, a) == AtOnce(w);
    FreePositionIsOffered(w, a.requested, a.protective);
  }
}
