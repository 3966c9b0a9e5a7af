/** Funding over whole runs: approvals, fills at any price within the frozen per-unit share, attribution arriving late,
    cancels, cash coming in and slippage profiles changing. Cash always covers what pending buys may still take. */
module FundingRuns {
  import opened Common
  import opened Funding
  import opened Sums

  /** One buy as it truly is: what the broker has filled, whether it can fill more, and what the local store has
      attributed and whether it still counts the buy as pending. The frozen record's inputs never change. */
  datatype BuyOrder = BuyOrder(
    asset: Asset, qty: real, price: real, multiplier: real, slippage: real, filled: real, open: bool, attributed: real,
    pending: bool)
  {
    /** The funding frozen at approval. */
    function Committed(): real {
      FundingFor(qty, price, multiplier, slippage, FeePct(asset.assetClass))
    }
  }

  datatype World = World(cash: real, buys: seq<BuyOrder>, limits: AssetClass -> real)

  ghost predicate BuyOk(b: BuyOrder) {
    && b.qty > 0.0 && b.price > 0.0 && b.multiplier > 0.0 && b.slippage >= 0.0
    && MultiplierOf(b.asset) == Ok(b.multiplier)
    && 0.0 <= b.attributed <= b.filled <= b.qty
    && (b.open ==> b.pending)
  }

  /** What the buy may still take from cash, at most. */
  function Due(b: BuyOrder): real
    requires b.qty != 0.0
  {
    if b.open then Share(b.Committed(), b.qty - b.filled, b.qty) else 0.0
  }

  ghost function Dues(w: World): int -> real {
    i => if 0 <= i < |w.buys| && w.buys[i].qty != 0.0 then Due(w.buys[i]) else 0.0
  }

  ghost predicate Funded(w: World) {
    && (forall i :: 0 <= i < |w.buys| ==> BuyOk(w.buys[i]))
    && w.cash >= Total(|w.buys|, Dues(w))
  }

  // ---- shares ----

  lemma CommittedPositive(b: BuyOrder)
    requires BuyOk(b)
    ensures b.Committed() > 0.0
  {
    var n := Notional(b.qty, b.price, b.multiplier);
    assert b.qty * b.price > 0.0;
    assert n > 0.0 by { MulStrict(0.0, b.qty * b.price, b.multiplier); }
    var fee := FeePct(b.asset.assetClass);
    assert 1.0 + b.slippage / 100.0 > 0.0;
    MulStrict(0.0, n, 1.0 + b.slippage / 100.0);
    MulMono(0.0, n, fee);
  }

  lemma ShareMono(whole: real, x: real, y: real, of: real)
    requires whole >= 0.0 && x <= y && of > 0.0
    ensures Share(whole, x, of) <= Share(whole, y, of)
  {
    MulMono(x, y, whole);
    assert whole * y / of - whole * x / of == (whole * y - whole * x) / of;
  }

  lemma ShareAdds(whole: real, x: real, y: real, of: real)
    requires of > 0.0
    ensures Share(whole, x, of) + Share(whole, y, of) == Share(whole, x + y, of)
  {
    assert whole * (x + y) == whole * x + whole * y;
  }

  lemma ShareBounds(whole: real, of: real)
    requires of > 0.0
    ensures Share(whole, of, of) == whole && Share(whole, 0.0, of) == 0.0
  {
  }

  lemma DueNotNegative(b: BuyOrder)
    requires BuyOk(b)
    ensures Due(b) >= 0.0
  {
    CommittedPositive(b);
    ShareMono(b.Committed(), 0.0, b.qty - b.filled, b.qty);
  }

  // ---- steps ----

  datatype Step =
    | Fill(i: nat, x: real, cost: real)
    | Close(i: nat)
    | Attribute(i: nat, x: real)
    | Resolve(i: nat)
    | CashIn(x: real)
    | NewProfile(limits: AssetClass -> real)

  /** A fill debits at most its frozen per-unit share; the store attributes only what was filled and drops a buy only
      after the broker has closed it. */
  ghost predicate Enabled(w: World, s: Step) {
    match s
    case Fill(i, x, cost) =>
      && i < |w.buys| && w.buys[i].open && w.buys[i].qty > 0.0 && 0.0 < x <= w.buys[i].qty - w.buys[i].filled
      && 0.0 <= cost <= Share(w.buys[i].Committed(), x, w.buys[i].qty)
    case Close(i) => i < |w.buys|
    case Attribute(i, x) => i < |w.buys| && 0.0 < x <= w.buys[i].filled - w.buys[i].attributed
    case Resolve(i) => i < |w.buys| && !w.buys[i].open
    case CashIn(x) => x >= 0.0
    case NewProfile(_) => true
  }

  ghost function Next(w: World, s: Step): World
    requires Enabled(w, s)
  {
    match s
    case Fill(i, x, cost) =>
      w.(cash := w.cash - cost, buys := w.buys[i := w.buys[i].(filled := w.buys[i].filled + x,
                                                               open := w.buys[i].filled + x < w.buys[i].qty)])
    case Close(i) => w.(buys := w.buys[i := w.buys[i].(open := false)])
    case Attribute(i, x) => w.(buys := w.buys[i := w.buys[i].(attributed := w.buys[i].attributed + x)])
    case Resolve(i) => w.(buys := w.buys[i := w.buys[i].(pending := false)])
    case CashIn(x) => w.(cash := w.cash + x)
    case NewProfile(limits) => w.(limits := limits)
  }

  lemma ChangedBuy(w: World, v: World, k: nat, b: BuyOrder)
    requires k < |w.buys| && v.buys == w.buys[k := b] && BuyOk(b) && BuyOk(w.buys[k])
    ensures Total(|v.buys|, Dues(v)) == Total(|w.buys|, Dues(w)) - Due(w.buys[k]) + Due(b)
  {
    TotalChanged(|w.buys|, Dues(w), Dues(v), k);
  }

  /** A fill takes from what is due at least what it takes from cash. */
  lemma FillPays(b: BuyOrder, x: real, cost: real, after: BuyOrder)
    requires BuyOk(b) && b.open && 0.0 < x <= b.qty - b.filled && cost <= Share(b.Committed(), x, b.qty)
    requires after == b.(filled := b.filled + x, open := b.filled + x < b.qty)
    ensures BuyOk(after) && cost <= Due(b) - Due(after)
  {
    hide FundingFor, Share;
    ShareAdds(b.Committed(), x, b.qty - b.filled - x, b.qty);
    assert b.Committed() == after.Committed();
    assert x + (b.qty - b.filled - x) == b.qty - b.filled;
    if !after.open {
      assert b.qty - b.filled - x == 0.0;
      ShareBounds(b.Committed(), b.qty);
    }
  }

  lemma StepFunded(w: World, s: Step)
    requires Funded(w) && Enabled(w, s)
    ensures Funded(Next(w, s))
  {
    hide Total, Due, FundingFor, Share;
    var v := Next(w, s);
    match s {
      case Fill(i, x, cost) => FillPays(w.buys[i], x, cost, v.buys[i]); ChangedBuy(w, v, i, v.buys[i]);
      case Close(i) => Closed(w.buys[i]); ChangedBuy(w, v, i, v.buys[i]);
      case Attribute(i, _) => SameDue(w.buys[i], v.buys[i]); ChangedBuy(w, v, i, v.buys[i]);
      case Resolve(i) => SameDue(w.buys[i], v.buys[i]); ChangedBuy(w, v, i, v.buys[i]);
      case CashIn(_) => TotalSame(|w.buys|, Dues(w), Dues(v));
      case NewProfile(_) => TotalSame(|w.buys|, Dues(w), Dues(v));
    }
  }

  lemma Closed(b: BuyOrder)
    requires BuyOk(b)
    ensures Due(b.(open := false)) == 0.0 <= Due(b)
  {
    DueNotNegative(b);
  }

  lemma SameDue(b: BuyOrder, c: BuyOrder)
    requires BuyOk(b) && c == b.(attributed := c.attributed, pending := c.pending)
    ensures Due(c) == Due(b)
  {
    assert c.Committed() == b.Committed();
  }

  // ---- from one read to a later one ----

  predicate Grew(a: BuyOrder, b: BuyOrder) {
    && b == a.(filled := b.filled, open := b.open, attributed := b.attributed, pending := b.pending)
    && a.filled <= b.filled && a.attributed <= b.attributed && (!a.open ==> b.filled == a.filled)
    && (b.open ==> a.open) && (b.pending ==> a.pending)
  }

  /** What fills between two moments can have cost. */
  ghost function Spent(a: World, b: World): int -> real {
    i => if 0 <= i < |a.buys| && i < |b.buys| && a.buys[i].qty != 0.0
         then Share(a.buys[i].Committed(), b.buys[i].filled - a.buys[i].filled, a.buys[i].qty) else 0.0
  }

  ghost predicate Later(a: World, b: World) {
    && |a.buys| == |b.buys|
    && (forall i :: 0 <= i < |a.buys| ==> Grew(a.buys[i], b.buys[i]))
    && b.cash >= a.cash - Total(|a.buys|, Spent(a, b))
  }

  lemma LaterRefl(w: World)
    requires Funded(w)
    ensures Later(w, w)
  {
    hide FundingFor;
    forall i | 0 <= i < |w.buys| ensures Spent(w, w)(i) == 0.0 {
      assert BuyOk(w.buys[i]);
      ShareBounds(w.buys[i].Committed(), w.buys[i].qty);
    }
    ZeroTotal(|w.buys|, Spent(w, w));
  }

  lemma SpentAdds(a: World, b: World, c: World)
    requires Funded(a) && |a.buys| == |b.buys| == |c.buys|
    requires forall i :: 0 <= i < |a.buys| ==> Grew(a.buys[i], b.buys[i])
    ensures Total(|a.buys|, Spent(a, b)) + Total(|a.buys|, Spent(b, c)) == Total(|a.buys|, Spent(a, c))
  {
    hide FundingFor, Share;
    forall i | 0 <= i < |a.buys| ensures Spent(a, b)(i) + Spent(b, c)(i) == Spent(a, c)(i) {
      assert BuyOk(a.buys[i]) && Grew(a.buys[i], b.buys[i]);
      assert b.buys[i].Committed() == a.buys[i].Committed();
      ShareAdds(a.buys[i].Committed(), b.buys[i].filled - a.buys[i].filled, c.buys[i].filled - b.buys[i].filled,
        a.buys[i].qty);
      assert (b.buys[i].filled - a.buys[i].filled) + (c.buys[i].filled - b.buys[i].filled)
        == c.buys[i].filled - a.buys[i].filled;
    }
    TotalPlus(|a.buys|, Spent(a, b), Spent(b, c), Spent(a, c));
  }

  lemma LaterTrans(a: World, b: World, c: World)
    requires Funded(a) && Later(a, b) && Later(b, c)
    ensures Later(a, c)
  {
    hide Total, Spent;
    forall i | 0 <= i < |a.buys| ensures Grew(a.buys[i], c.buys[i]) {
      assert Grew(a.buys[i], b.buys[i]) && Grew(b.buys[i], c.buys[i]);
    }
    SpentAdds(a, b, c);
  }

  lemma OneSpent(w: World, v: World, k: nat, b: BuyOrder)
    requires Funded(w) && k < |w.buys| && v.buys == w.buys[k := b]
    ensures Total(|w.buys|, Spent(w, v)) == Spent(w, v)(k)
  {
    hide FundingFor;
    var zero := Spent(w, w);
    forall i | 0 <= i < |w.buys| ensures zero(i) == 0.0 && (i != k ==> Spent(w, v)(i) == 0.0) {
      assert BuyOk(w.buys[i]);
      ShareBounds(w.buys[i].Committed(), w.buys[i].qty);
    }
    ZeroTotal(|w.buys|, zero);
    TotalChanged(|w.buys|, zero, Spent(w, v), k);
  }

  lemma StepLater(w: World, s: Step)
    requires Funded(w) && Enabled(w, s)
    ensures Later(w, Next(w, s))
  {
    hide Total, FundingFor, Due, Share;
    var v := Next(w, s);
    match s {
      case Fill(i, x, _) =>
        OneSpent(w, v, i, v.buys[i]);
        assert v.buys[i].filled - w.buys[i].filled == x;
      case Close(i) => OneSpent(w, v, i, v.buys[i]); NothingSpent(w.buys[i]);
      case Attribute(i, _) => OneSpent(w, v, i, v.buys[i]); NothingSpent(w.buys[i]);
      case Resolve(i) => OneSpent(w, v, i, v.buys[i]); NothingSpent(w.buys[i]);
      case CashIn(_) => LaterRefl(w); TotalSame(|w.buys|, Spent(w, w), Spent(w, v));
      case NewProfile(_) => LaterRefl(w); TotalSame(|w.buys|, Spent(w, w), Spent(w, v));
    }
  }

  lemma NothingSpent(b: BuyOrder)
    requires b.qty > 0.0
    ensures Share(b.Committed(), b.filled - b.filled, b.qty) == 0.0
  {
    hide FundingFor;
  }

  ghost predicate AllEnabled(w: World, steps: seq<Step>)
    decreases |steps|
  {
    steps == [] || (Enabled(w, steps[0]) && AllEnabled(Next(w, steps[0]), steps[1..]))
  }

  ghost function After(w: World, steps: seq<Step>): World
    requires AllEnabled(w, steps)
    decreases |steps|
  {
    if steps == [] then w else After(Next(w, steps[0]), steps[1..])
  }

  lemma {:induction false} AfterFunded(w: World, steps: seq<Step>)
    requires Funded(w) && AllEnabled(w, steps)
    ensures Funded(After(w, steps)) && Later(w, After(w, steps))
    decreases |steps|
  {
    hide Funded, Later, Enabled, Next;
    if steps == [] {
      LaterRefl(w);
    } else {
      StepFunded(w, steps[0]);
      StepLater(w, steps[0]);
      AfterFunded(Next(w, steps[0]), steps[1..]);
      LaterTrans(w, Next(w, steps[0]), After(w, steps));
    }
  }

  // ---- the store's view ----

  /** The pending intent with its frozen record, as approval wrote it. */
  function View(i: nat, b: BuyOrder): Remainder {
    Remainder(Intent(i, Buy, b.asset, Some(b.qty), Some(b.price),
                     Record(Block(Some(b.qty), Some(b.Committed()), Some(b.price), Some(b.multiplier), Some(b.slippage),
                                  Some(FeePct(b.asset.assetClass))))),
              b.attributed)
  }

  function Views(buys: seq<BuyOrder>): seq<Remainder> {
    if buys == [] then []
    else
      var n := |buys| - 1;
      Views(buys[..n]) + (if buys[n].pending then [View(n, buys[n])] else [])
  }

  /** What the frozen record alone reserves for a buy. */
  function Reserved(b: BuyOrder): real
    requires b.qty != 0.0
  {
    if b.pending then Share(b.Committed(), b.qty - b.attributed, b.qty) else 0.0
  }

  ghost function Reserves(buys: seq<BuyOrder>): int -> real {
    i => if 0 <= i < |buys| && buys[i].qty != 0.0 then Reserved(buys[i]) else 0.0
  }

  /** A record written at approval always reconciles, and reserves at least its frozen share whatever the profile is
      now. */
  lemma LineReserves(i: nat, b: BuyOrder, limits: AssetClass -> real)
    requires BuyOk(b) && b.pending
    ensures var line := LineOf(View(i, b), limits);
            line.Ok? && !line.value.mismatch && !line.value.unpriced && line.value.amount >= Reserved(b)
  {
    hide FundingFor, Share;
    CommittedPositive(b);
    if b.qty - b.attributed <= 0.0 {
      assert b.qty - b.attributed == 0.0;
      ShareBounds(b.Committed(), b.qty);
    }
  }

  lemma {:induction false} PendingReserves(buys: seq<BuyOrder>, k: nat, limits: AssetClass -> real)
    requires k <= |buys| && forall i :: 0 <= i < |buys| ==> BuyOk(buys[i])
    ensures var rs := Views(buys[..k]);
            && AllSized(rs)
            && var p := PendingOver(rs, limits);
               p.Ok? && p.value.mismatches == [] && p.value.unpriced == [] && p.value.total >= Total(k, Reserves(buys))
  {
    if k == 0 {
      assert buys[..0] == [];
    } else {
      hide LineOf, Reserved, BuyOk, PendingOver, AllSized, Total, Reserves, Views;
      var n := k - 1;
      PendingReserves(buys, n, limits);
      OneMoreView(buys, k);
      TotalNext(n, Reserves(buys));
      ReservesAt(buys, n);
      if buys[n].pending {
        LineReserves(n, buys[n], limits);
        OneMoreRemainder(Views(buys[..n]), View(n, buys[n]), limits);
      }
    }
  }

  lemma OneMoreView(buys: seq<BuyOrder>, k: nat)
    requires 0 < k <= |buys|
    ensures var rest := Views(buys[..k - 1]);
            Views(buys[..k]) == if buys[k - 1].pending then rest + [View(k - 1, buys[k - 1])] else rest
  {
    assert buys[..k][..k - 1] == buys[..k - 1];
  }

  lemma ReservesAt(buys: seq<BuyOrder>, n: nat)
    requires n < |buys| && BuyOk(buys[n])
    ensures buys[n].qty != 0.0 && Reserves(buys)(n) == Reserved(buys[n])
    ensures !buys[n].pending ==> Reserved(buys[n]) == 0.0
  {
  }

  lemma {:induction false} OneMoreRemainder(rs: seq<Remainder>, r: Remainder, limits: AssetClass -> real)
    requires AllSized(rs) && r.intent.requested.Some? && PendingOver(rs, limits).Ok? && LineOf(r, limits).Ok?
    requires !LineOf(r, limits).value.mismatch && !LineOf(r, limits).value.unpriced
    ensures AllSized(rs + [r])
    ensures var p := PendingOver(rs, limits).value;
            PendingOver(rs + [r], limits) == Ok(p.(total := p.total + LineOf(r, limits).value.amount))
  {
    assert (rs + [r])[..|rs|] == rs;
  }

  lemma QtyNotZero(b: BuyOrder)
    requires BuyOk(b)
    ensures b.qty != 0.0
  {
  }

  // ---- one approval ----

  /** What the store still reserves of a buy is at least what it may yet take and what it took since the account was
      read. */
  predicate ReserveCovers(account: BuyOrder, pending: BuyOrder, now: BuyOrder) {
    (if now.open then now.qty - now.filled else 0.0) + (now.filled - account.filled)
    <= if pending.pending then pending.qty - pending.attributed else 0.0
  }

  lemma ShareCompares(whole: real, x: real, y: real, of: real)
    requires whole > 0.0 && of > 0.0
    ensures Share(whole, x, of) <= Share(whole, y, of) <==> x <= y
  {
    if x <= y {
      ShareMono(whole, x, y, of);
    } else {
      MulStrict(y, x, whole);
      assert whole * x / of - whole * y / of == (whole * x - whole * y) / of;
    }
  }

  /** For one buy the condition is exact: at the frozen share, the reserve covers what is due and what was spent since
      the account read exactly when it covers the quantities. */
  lemma ReserveIsExact(a: BuyOrder, b: BuyOrder, c: BuyOrder)
    requires BuyOk(a) && BuyOk(c) && Grew(a, b) && Grew(b, c)
    ensures Due(c) + Share(a.Committed(), c.filled - a.filled, a.qty) <= Reserved(b) <==> ReserveCovers(a, b, c)
  {
    hide FundingFor, Share;
    CommittedPositive(a);
    assert c.Committed() == a.Committed() == b.Committed();
    var yet, since := if c.open then c.qty - c.filled else 0.0, c.filled - a.filled;
    var kept := if b.pending then b.qty - b.attributed else 0.0;
    ShareBounds(a.Committed(), a.qty);
    ShareAdds(a.Committed(), yet, since, a.qty);
    ShareCompares(a.Committed(), yet + since, kept, a.qty);
  }

  /** What can be told from the two reads: nothing filled since the account was read has left the reserve. An open buy
      has attributed no more than was filled by then, a closed one keeps room for what filled since, and a buy no longer
      pending filled nothing since. */
  predicate StillReserved(account: BuyOrder, pending: BuyOrder) {
    if !pending.pending then pending.filled == account.filled
    else if pending.open then pending.attributed <= account.filled
    else pending.filled - account.filled <= pending.qty - pending.attributed
  }

  /** The condition is exact: it holds at the two reads if and only if, whatever the broker still fills or closes before
      the approval, what the buy may then take and what it took since the account read are within the frozen share that
      is reserved. */
  lemma StillReservedIsExact(a: BuyOrder, b: BuyOrder)
    requires BuyOk(a) && BuyOk(b) && Grew(a, b)
    ensures StillReserved(a, b)
            <==> forall c :: BuyOk(c) && Grew(b, c) ==>
                   Due(c) + Share(a.Committed(), c.filled - a.filled, a.qty) <= Reserved(b)
  {
    hide Due, Reserved, FundingFor, Share;
    if StillReserved(a, b) {
      forall c | BuyOk(c) && Grew(b, c)
        ensures Due(c) + Share(a.Committed(), c.filled - a.filled, a.qty) <= Reserved(b)
      {
        ReserveIsExact(a, b, c);
      }
    } else {
      ReserveIsExact(a, b, b);
      assert BuyOk(b) && Grew(b, b);
    }
  }

  ghost predicate AllStillReserved(account: World, pending: World) {
    && |account.buys| == |pending.buys|
    && forall i :: 0 <= i < |account.buys| ==> StillReserved(account.buys[i], pending.buys[i])
  }

  /** What every buy may take and has taken is reserved, so all together is. */
  lemma AllIsReserved(account: World, pending: World, now: World)
    requires Funded(account) && Funded(pending) && Funded(now) && Later(account, pending) && Later(pending, now)
    requires AllStillReserved(account, pending)
    ensures var n := |now.buys|;
            Total(n, Dues(now)) + Total(n, Spent(account, now)) <= Total(n, Reserves(pending.buys))
  {
    hide Total, Due, Reserved, FundingFor, Share, StillReserved;
    var n := |now.buys|;
    var need := (i: int) => Dues(now)(i) + Spent(account, now)(i);
    TotalPlus(n, Dues(now), Spent(account, now), need);
    forall i | 0 <= i < n ensures need(i) <= Reserves(pending.buys)(i) {
      var a, b, c := account.buys[i], pending.buys[i], now.buys[i];
      assert BuyOk(a) && BuyOk(b) && BuyOk(c) && Grew(a, b) && Grew(b, c) && StillReserved(a, b);
      QtyNotZero(a);
      StillReservedIsExact(a, b);
    }
    TotalAtMost(n, need, Reserves(pending.buys));
  }

  /** What funding allows is really there when the order is approved, whatever the broker fills or closes and however
      late that is attributed after the pending read. */
  lemma AvailableIsThere(account: World, pending: World, now: World, read: Account, c: AssetClass)
    requires Funded(account) && Funded(pending) && Funded(now) && Later(account, pending) && Later(pending, now)
    requires AllStillReserved(account, pending) && read.cash == Some(account.cash)
    ensures var p := PendingFunding(Views(pending.buys), pending.limits);
            && p.Ok? && p.value.mismatches == [] && p.value.unpriced == []
            && var available := FundingAvailable(read, c, p.value.total);
               available.Some? ==> available.value <= now.cash - Total(|now.buys|, Dues(now))
  {
    hide Total, PendingFunding, PendingOver, Dues, Spent, Reserves, BuyOk, Grew, AllStillReserved;
    var n := |now.buys|;
    LaterTrans(account, pending, now);
    assert pending.buys[..n] == pending.buys;
    PendingReserves(pending.buys, n, pending.limits);
    AllIsReserved(account, pending, now);
    PendingIsOver(Views(pending.buys), pending.limits);
  }

  lemma {:induction false} PendingIsOver(rs: seq<Remainder>, limits: AssetClass -> real)
    requires AllSized(rs)
    ensures PendingFunding(rs, limits) == PendingOver(rs, limits)
  {
  }

  // ---- whole runs ----

  /** An approval: what happens between the reads, the broker's buying power for margined and for crypto buys, the buy
      with its frozen inputs. */
  datatype Approval = Approval(beforePending: seq<Step>, beforeApproved: seq<Step>, buyingPower: Option<real>,
                               nonMarginablePower: Option<real>, buy: BuyOrder)

  datatype Event = Happens(step: Step) | Approves(approval: Approval)

  ghost predicate CanApprove(w: World, a: Approval) {
    AllEnabled(w, a.beforePending) &&
    var pending := After(w, a.beforePending);
    AllEnabled(pending, a.beforeApproved) &&
    AllStillReserved(w, pending) &&
    BuyOk(a.buy) && a.buy.open && a.buy.filled == 0.0
  }

  ghost predicate Allowed(w: World, e: Event) {
    match e
    case Happens(s) => Enabled(w, s)
    case Approves(a) => CanApprove(w, a)
  }

  /** The account as the approval reads it. */
  function ReadOf(w: World, a: Approval): Account {
    Account(Some(w.cash), a.buyingPower, a.nonMarginablePower)
  }

  /** A buy is approved when its funding fits what is available; otherwise nothing is committed. */
  ghost function Result(w: World, e: Event): World
    requires Allowed(w, e)
  {
    match e
    case Happens(s) => Next(w, s)
    case Approves(a) =>
      var pending := After(w, a.beforePending);
      var now := After(pending, a.beforeApproved);
      match PendingFunding(Views(pending.buys), pending.limits)
      case Err(_) => now
      case Ok(p) =>
        var available := FundingAvailable(ReadOf(w, a), a.buy.asset.assetClass, p.total);
        if p.mismatches == [] && p.unpriced == [] && available.Some? && a.buy.Committed() <= available.value
        then now.(buys := now.buys + [a.buy]) else now
  }

  ghost predicate AllAllowed(w: World, events: seq<Event>)
    decreases |events|
  {
    events == [] || (Allowed(w, events[0]) && AllAllowed(Result(w, events[0]), events[1..]))
  }

  ghost function Final(w: World, events: seq<Event>): World
    requires AllAllowed(w, events)
    decreases |events|
  {
    if events == [] then w else Final(Result(w, events[0]), events[1..])
  }

  lemma OneMoreBuy(w: World, b: BuyOrder)
    requires Funded(w) && BuyOk(b) && b.filled == 0.0 && b.Committed() <= w.cash - Total(|w.buys|, Dues(w))
    ensures Funded(w.(buys := w.buys + [b]))
  {
    hide FundingFor;
    var v := w.(buys := w.buys + [b]);
    TotalSame(|w.buys|, Dues(w), Dues(v));
    CommittedPositive(b);
    ShareBounds(b.Committed(), b.qty);
  }

  /** A buy is approved exactly when its commitment, together with what is pending, fits the cash that was read and the
      buying power of its class. */
  lemma {:induction false} ApprovedExactly(w: World, a: Approval)
    requires Funded(w) && CanApprove(w, a)
    ensures var pending := After(w, a.beforePending);
            var now := After(pending, a.beforeApproved);
            var p := PendingFunding(Views(pending.buys), pending.limits);
            var power := if a.buy.asset.assetClass == Crypto then a.nonMarginablePower else a.buyingPower;
            && p.Ok? && p.value.total >= Total(|pending.buys|, Reserves(pending.buys)) >= 0.0
            && Result(w, Approves(a)) ==
               if && power.Some? && a.buy.Committed() + p.value.total <= power.value
                  && a.buy.Committed() + p.value.total <= w.cash
               then now.(buys := now.buys + [a.buy]) else now
  {
    hide Later, FundingFor, PendingFunding, FundingAvailable, AllEnabled, After, AllStillReserved, BuyOk, Total, Dues,
      Reserves, PendingOver;
    var pending := After(w, a.beforePending);
    var now := After(pending, a.beforeApproved);
    AfterFunded(w, a.beforePending);
    AfterFunded(pending, a.beforeApproved);
    AvailableIsThere(w, pending, now, ReadOf(w, a), a.buy.asset.assetClass);
    assert pending.buys[..|pending.buys|] == pending.buys;
    PendingReserves(pending.buys, |pending.buys|, pending.limits);
    ReservesNotNegative(pending);
    PendingIsOver(Views(pending.buys), pending.limits);
    CommittedPositive(a.buy);
    DuesNotNegative(w);
    var total := PendingFunding(Views(pending.buys), pending.limits).value.total;
    AvailableIsTheGreatest(ReadOf(w, a), a.buy.asset.assetClass, total, a.buy.Committed());
  }

  lemma ReservesNotNegative(w: World)
    requires Funded(w)
    ensures Total(|w.buys|, Reserves(w.buys)) >= 0.0
  {
    hide Reserved;
    var zero := (i: int) => 0.0;
    forall i | 0 <= i < |w.buys| ensures zero(i) <= Reserves(w.buys)(i) {
      assert BuyOk(w.buys[i]);
      ReservedNotNegative(w.buys[i]);
    }
    TotalAtMost(|w.buys|, zero, Reserves(w.buys));
    ZeroTotal(|w.buys|, zero);
  }

  lemma EventFunded(w: World, e: Event)
    requires Funded(w) && Allowed(w, e)
    ensures Funded(Result(w, e))
  {
    match e {
      case Happens(s) => StepFunded(w, s);
      case Approves(a) =>
        hide Funded, Later, FundingFor, PendingFunding, FundingAvailable, AllEnabled, After, AllStillReserved, BuyOk;
        var pending := After(w, a.beforePending);
        var now := After(pending, a.beforeApproved);
        AfterFunded(w, a.beforePending);
        AfterFunded(pending, a.beforeApproved);
        AvailableIsThere(w, pending, now, ReadOf(w, a), a.buy.asset.assetClass);
        if Result(w, e) != now { OneMoreBuy(now, a.buy); }
    }
  }

  /** Over every run, cash covers whatever pending buys may still take, and so is never negative. */
  lemma {:induction false} CashCoversCommitments(w: World, events: seq<Event>)
    requires Funded(w) && AllAllowed(w, events)
    ensures var v := Final(w, events); v.cash >= Total(|v.buys|, Dues(v)) >= 0.0
    decreases |events|
  {
    hide Allowed, Result;
    if events == [] {
      DuesNotNegative(w);
    } else {
      EventFunded(w, events[0]);
      CashCoversCommitments(Result(w, events[0]), events[1..]);
    }
  }

  lemma DuesNotNegative(w: World)
    requires Funded(w)
    ensures Total(|w.buys|, Dues(w)) >= 0.0
  {
    hide Due;
    var zero := (i: int) => 0.0;
    forall i | 0 <= i < |w.buys| ensures zero(i) <= Dues(w)(i) {
      assert BuyOk(w.buys[i]);
      DueNotNegative(w.buys[i]);
    }
    TotalAtMost(|w.buys|, zero, Dues(w));
    ZeroTotal(|w.buys|, zero);
  }

  // ---- when the condition holds, and when not ----

  /** The store attributes nothing and drops no buy. */
  ghost predicate StoreIdle(steps: seq<Step>) {
    forall s :: s in steps ==> !s.Attribute? && !s.Resolve?
  }

  lemma {:induction false} StoreUnchanged(w: World, steps: seq<Step>)
    requires AllEnabled(w, steps) && StoreIdle(steps)
    ensures var v := After(w, steps);
            && |v.buys| == |w.buys|
            && forall i :: 0 <= i < |w.buys| ==>
                 v.buys[i].attributed == w.buys[i].attributed && v.buys[i].pending == w.buys[i].pending
    decreases |steps|
  {
    if steps != [] {
      assert steps[0] in steps;
      StoreUnchanged(Next(w, steps[0]), steps[1..]);
    }
  }

  /** Whatever the broker fills or closes, nothing leaves the reserve while the store is idle. */
  lemma {:induction false} IdleStoreReserves(w: World, steps: seq<Step>)
    requires Funded(w) && AllEnabled(w, steps) && StoreIdle(steps)
    ensures AllStillReserved(w, After(w, steps))
  {
    hide AllEnabled, After, StoreIdle, Total;
    AfterFunded(w, steps);
    StoreUnchanged(w, steps);
    var v := After(w, steps);
    forall i | 0 <= i < |w.buys| ensures StillReserved(w.buys[i], v.buys[i]) {
      assert BuyOk(w.buys[i]) && BuyOk(v.buys[i]) && Grew(w.buys[i], v.buys[i]);
    }
  }

  /** So an approval may go ahead whenever the store is idle between its two reads: before the account read, and from
      the pending read on, attribution may be as late as it likes. */
  lemma {:induction false} LateAttributionIsAllowed(w: World, a: Approval)
    requires Funded(w) && AllEnabled(w, a.beforePending) && StoreIdle(a.beforePending)
    requires AllEnabled(After(w, a.beforePending), a.beforeApproved)
    requires BuyOk(a.buy) && a.buy.open && a.buy.filled == 0.0
    ensures CanApprove(w, a)
  {
    hide AllStillReserved, AllEnabled, After, StoreIdle;
    IdleStoreReserves(w, a.beforePending);
  }

  /** At a profile no wider than the frozen one a record reserves exactly its frozen share. */
  lemma LineIsFrozen(i: nat, b: BuyOrder, limits: AssetClass -> real)
    requires BuyOk(b) && b.pending && limits(b.asset.assetClass) <= b.slippage
    ensures var line := LineOf(View(i, b), limits); line.Ok? && line.value == Line(Reserved(b), false, false)
  {
    var left, fee := b.qty - b.attributed, FeePct(b.asset.assetClass);
    CommittedPositive(b);
    ShareBounds(b.Committed(), b.qty);
    if left > 0.0 {
      FundingShare(left, b.qty, b.price, b.multiplier, b.slippage, fee);
      FundingMono(left, b.price, b.multiplier, limits(b.asset.assetClass), b.slippage, fee);
      hide FundingFor, Share;
    }
  }

  /** Funding is in proportion to the quantity. */
  lemma FundingShare(part: real, qty: real, price: real, multiplier: real, slippage: real, fee: real)
    requires qty > 0.0
    ensures Share(FundingFor(qty, price, multiplier, slippage, fee), part, qty)
         == FundingFor(part, price, multiplier, slippage, fee)
  {
    var unit := price * multiplier * (1.0 + slippage / 100.0) + price * multiplier * fee / 100.0;
    FundingUnits(qty, price, multiplier, slippage, fee);
    FundingUnits(part, price, multiplier, slippage, fee);
    assert qty * unit * part == part * unit * qty;
  }

  lemma FundingUnits(qty: real, price: real, multiplier: real, slippage: real, fee: real)
    ensures FundingFor(qty, price, multiplier, slippage, fee)
         == qty * (price * multiplier * (1.0 + slippage / 100.0) + price * multiplier * fee / 100.0)
  {
    var n, unit := Notional(qty, price, multiplier), price * multiplier;
    assert n == qty * unit;
    assert n * (1.0 + slippage / 100.0) == qty * (unit * (1.0 + slippage / 100.0));
    assert n * fee / 100.0 == qty * (unit * fee / 100.0);
  }

  lemma FundingMono(qty: real, price: real, multiplier: real, narrow: real, wide: real, fee: real)
    requires qty > 0.0 && price > 0.0 && multiplier > 0.0 && narrow <= wide
    ensures FundingFor(qty, price, multiplier, narrow, fee) <= FundingFor(qty, price, multiplier, wide, fee)
  {
    var n := Notional(qty, price, multiplier);
    assert qty * price > 0.0;
    MulStrict(0.0, qty * price, multiplier);
    MulMono(1.0 + narrow / 100.0, 1.0 + wide / 100.0, n);
  }

  lemma {:induction false} OnePending(b: BuyOrder, limits: AssetClass -> real)
    requires BuyOk(b) && limits(b.asset.assetClass) <= b.slippage
    ensures PendingFunding(Views([b]), limits) == Ok(Pending(Reserved(b), [], []))
  {
    hide LineOf, Reserved, FundingFor, Share;
    var buys := [b];
    assert buys[..0] == [] && buys[..1] == buys;
    OneMoreView(buys, 1);
    ReservesAt(buys, 0);
    assert PendingOver([], limits) == Ok(Pending(0.0, [], []));
    if b.pending {
      LineIsFrozen(0, b, limits);
      OneMoreRemainder([], View(0, b), limits);
      assert [] + [View(0, b)] == [View(0, b)];
    }
    PendingIsOver(Views(buys), limits);
  }

  /** And necessary: with one buy, fills that cost their full share and a profile no wider than the frozen one, what
      funding offers is there at the pending read if and only if the condition holds or the buying power is too small to
      offer more than is there. */
  lemma {:induction false} OfferedIsThereExactly(a: BuyOrder, b: BuyOrder, cash: real, power: real,
                                                 c: AssetClass, limits: AssetClass -> real)
    requires BuyOk(a) && BuyOk(b) && Grew(a, b) && limits(b.asset.assetClass) <= b.slippage
    requires power >= 0.0 && cash >= 0.0
    ensures var left := cash - Share(a.Committed(), b.filled - a.filled, a.qty);
            var available := FundingAvailable(Account(Some(cash), Some(power), Some(power)), c, Reserved(b));
            && PendingFunding(Views([b]), limits) == Ok(Pending(Reserved(b), [], []))
            && available.Some?
            && (available.value <= left - Due(b) <==> StillReserved(a, b) || power - Reserved(b) <= left - Due(b))
  {
    hide FundingFor, Share, Due, Reserved, Views, PendingFunding;
    OnePending(b, limits);
    ReserveIsExact(a, b, b);
    ReservedNotNegative(b);
  }

  lemma ReservedNotNegative(b: BuyOrder)
    requires BuyOk(b)
    ensures Reserved(b) >= 0.0
  {
    hide FundingFor;
    CommittedPositive(b);
    ShareMono(b.Committed(), 0.0, b.qty - b.attributed, b.qty);
    ShareBounds(b.Committed(), b.qty);
  }

  /** Why attribution may not slip in between the two reads: the account is read, the whole buy fills and is
      attributed, and then nothing is pending, so the cash just spent is offered again. */
  lemma AttributedBetweenReads(b: BuyOrder, limits: AssetClass -> real)
    requires BuyOk(b) && b.open && b.filled == 0.0
    ensures var account := World(b.Committed(), [b], limits);
            var steps := [Fill(0, b.qty, b.Committed()), Attribute(0, b.qty)];
            && Funded(account) && AllEnabled(account, steps)
            && var now := After(account, steps);
               && now.cash == 0.0
               && PendingFunding(Views(now.buys), limits) == Ok(Pending(0.0, [], []))
               && FundingAvailable(Account(Some(account.cash), Some(account.cash), Some(account.cash)),
                                   b.asset.assetClass, 0.0) == Some(b.Committed())
               && !AllStillReserved(account, now)
  {
    hide FundingFor;
    CommittedPositive(b);
    ShareBounds(b.Committed(), b.qty);
    var account := World(b.Committed(), [b], limits);
    var steps := [Fill(0, b.qty, b.Committed()), Attribute(0, b.qty)];
    TotalNext(0, Dues(account));
    assert Enabled(account, steps[0]);
    var filled := Next(account, steps[0]);
    assert steps[1..] == [steps[1]] && [steps[1]][1..] == [];
    assert Enabled(filled, steps[1]);
    var now := Next(filled, steps[1]);
    assert AllEnabled(filled, [steps[1]]);
    assert After(now, []) == now;
    assert After(filled, [steps[1]]) == After(Next(filled, [steps[1]][0]), [steps[1]][1..]);
    assert After(account, steps) == After(filled, steps[1..]);
    assert now.buys[..0] == [] && Views(now.buys) == [View(0, now.buys[0])];
    assert LineOf(View(0, now.buys[0]), limits) == Ok(Line(0.0, false, false));
    assert PendingOver([], limits) == Ok(Pending(0.0, [], []));
    OneMoreRemainder([], View(0, now.buys[0]), limits);
    assert [] + [View(0, now.buys[0])] == [View(0, now.buys[0])];
  }
}
