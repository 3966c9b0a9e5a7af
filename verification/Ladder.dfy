/** The exit ladder replayed on daily bars after entry, in units of initial risk (R). */
module Ladder {
  import opened Common

  const MAX_HOLD_BARS: nat := 15
  const STALL_BARS: nat := 7
  const STALL_MIN_R := 0.5
  const SCALE_OUT_R := 1.0
  const FINAL_TARGET_R := 3.0

  datatype Bar = Bar(open: real, high: real, low: real, close: real)

  datatype Kind = GapStop | GapBreakEven | StopOut | BreakEven | Target | Stall | TimeStop

  datatype Label = Label(r: real, exit: Kind, bars: nat)

  function R(entry: real, risk: real, price: real): real
    requires risk != 0.0
  {
    (price - entry) / risk
  }

  function LevelOf(entry: real, risk: real, r: real): real { entry + r * risk }

  // ---- what the ladder means, sale by sale ----

  datatype Sale = Sale(fraction: real, price: real)

  /** How a trade ended: what was sold at which prices, in order. */
  datatype Trade = Trade(sales: seq<Sale>, exit: Kind, bars: nat, scaled: bool)

  function ScaledOut(entry: real, risk: real): seq<Sale> {
    [Sale(0.5, LevelOf(entry, risk, SCALE_OUT_R))]
  }

  /** Everything still held is sold at the price. */
  function SoldAt(entry: real, risk: real, scaled: bool, price: real): seq<Sale> {
    if scaled then ScaledOut(entry, risk) + [Sale(0.5, price)] else [Sale(1.0, price)]
  }

  function Stop(entry: real, stop: real, scaled: bool): real { if scaled then entry else stop }

  predicate ScaledBy(entry: real, risk: real, bar: Bar, scaled: bool) {
    scaled || bar.high >= LevelOf(entry, risk, SCALE_OUT_R)
  }

  /** The trade that ends on this bar, the `held`-th, if it does. */
  function OnBar(entry: real, stop: real, bar: Bar, held: nat, scaled: bool, best: real): Option<Trade>
    requires stop < entry
  {
    var risk, level := entry - stop, Stop(entry, stop, scaled);
    if bar.open <= level then
      Some(Trade(SoldAt(entry, risk, scaled, bar.open), if scaled then GapBreakEven else GapStop, held, scaled))
    else if bar.low <= level then
      Some(Trade(SoldAt(entry, risk, scaled, level), if scaled then BreakEven else StopOut, held, scaled))
    else
      var now := ScaledBy(entry, risk, bar, scaled);
      if now && !scaled && bar.low <= entry then Some(Trade(SoldAt(entry, risk, now, entry), BreakEven, held, now))
      else if now && bar.high >= LevelOf(entry, risk, FINAL_TARGET_R) then
        Some(Trade(SoldAt(entry, risk, now, LevelOf(entry, risk, FINAL_TARGET_R)), Target, held, now))
      else if !now && held >= STALL_BARS && R(entry, risk, Max(best, bar.high)) < STALL_MIN_R then
        Some(Trade(SoldAt(entry, risk, now, bar.close), Stall, held, now))
      else None
  }

  function TradeFrom(entry: real, stop: real, after: seq<Bar>, n: nat, scaled: bool, best: real): Trade
    requires stop < entry && MAX_HOLD_BARS <= |after| && n <= MAX_HOLD_BARS
    decreases MAX_HOLD_BARS - n
  {
    if n == MAX_HOLD_BARS then Trade(SoldAt(entry, entry - stop, scaled, after[n - 1].close), TimeStop, n, scaled)
    else match OnBar(entry, stop, after[n], n + 1, scaled, best)
      case Some(t) => t
      case None => TradeFrom(entry, stop, after, n + 1, ScaledBy(entry, entry - stop, after[n], scaled),
        Max(best, after[n].high))
  }

  function Fractions(sales: seq<Sale>): real {
    if sales == [] then 0.0 else sales[0].fraction + Fractions(sales[1..])
  }

  /** The sales' weighted result in R. */
  function ResultOf(entry: real, risk: real, sales: seq<Sale>): real
    requires risk != 0.0
  {
    if sales == [] then 0.0 else sales[0].fraction * R(entry, risk, sales[0].price) + ResultOf(entry, risk, sales[1..])
  }

  lemma {:induction false} Shape(entry: real, risk: real, scaled: bool, price: real)
    requires risk > 0.0
    ensures var sales := SoldAt(entry, risk, scaled, price);
            && Fractions(sales) == 1.0
            && ResultOf(entry, risk, sales)
               == if scaled then 0.5 * R(entry, risk, LevelOf(entry, risk, SCALE_OUT_R)) + 0.5 * R(entry, risk, price)
                  else R(entry, risk, price)
  {
    hide R, LevelOf;
    var sales := SoldAt(entry, risk, scaled, price);
    var last := [Sale(if scaled then 0.5 else 1.0, price)];
    assert last[1..] == [];
    assert ResultOf(entry, risk, last) == last[0].fraction * R(entry, risk, price) + ResultOf(entry, risk, []);
    assert Fractions(last) == last[0].fraction;
    if scaled {
      assert sales[0] == ScaledOut(entry, risk)[0] && sales[1..] == last;
    } else {
      assert sales == last;
    }
  }

  lemma RAtLevel(entry: real, risk: real, r: real)
    requires risk > 0.0
    ensures R(entry, risk, LevelOf(entry, risk, r)) == r
  {
    assert r * risk / risk == r;
  }

  lemma RMonotone(entry: real, risk: real, a: real, b: real)
    requires risk > 0.0 && a <= b
    ensures R(entry, risk, a) <= R(entry, risk, b)
  {
    assert (b - entry) / risk - (a - entry) / risk == (b - a) / risk;
    assert (b - a) / risk >= 0.0;
  }

  // ---- the replay ----

  /** What every exit adds: the realised part plus what is still held at the price. */
  lemma {:induction false} Booked(entry: real, risk: real, scaled: bool, price: real, result: real, remaining: real)
    requires risk > 0.0
    requires if scaled then result == 0.5 && remaining == 0.5 else result == 0.0 && remaining == 1.0
    ensures result + remaining * R(entry, risk, price) == ResultOf(entry, risk, SoldAt(entry, risk, scaled, price))
  {
    hide R, LevelOf;
    Shape(entry, risk, scaled, price);
    RAtLevel(entry, risk, SCALE_OUT_R);
  }

  lemma NextBar(entry: real, stop: real, after: seq<Bar>, n: nat, scaled: bool, best: real)
    requires stop < entry && MAX_HOLD_BARS <= |after| && n < MAX_HOLD_BARS
    ensures TradeFrom(entry, stop, after, n, scaled, best)
         == match OnBar(entry, stop, after[n], n + 1, scaled, best)
            case Some(t) => t
            case None =>
              TradeFrom(entry, stop, after, n + 1, ScaledBy(entry, entry - stop, after[n], scaled),
                Max(best, after[n].high))
  {
  }

  lemma {:induction false} LastBar(entry: real, stop: real, after: seq<Bar>, scaled: bool, best: real)
    requires stop < entry && MAX_HOLD_BARS <= |after|
    ensures TradeFrom(entry, stop, after, MAX_HOLD_BARS, scaled, best)
         == Trade(SoldAt(entry, entry - stop, scaled, after[MAX_HOLD_BARS - 1].close), TimeStop, MAX_HOLD_BARS, scaled)
  {
  }

  method ReplayLadder(entry: real, stop: real, after: seq<Bar>, costR: real) returns (outcome: Option<Label>)
    ensures outcome.None? <==> entry - stop <= 0.0 || |after| < MAX_HOLD_BARS
    ensures outcome.Some? ==>
              var t := TradeFrom(entry, stop, after, 0, false, entry);
              outcome.value == Label(ResultOf(entry, entry - stop, t.sales) - costR, t.exit, t.bars)
  {
    hide R, LevelOf, ResultOf, SoldAt, TradeFrom;
    var risk := entry - stop;
    if risk <= 0.0 || |after| < MAX_HOLD_BARS { return None; }
    var level, target, remaining, result, scaled, best :=
      stop, LevelOf(entry, risk, FINAL_TARGET_R), 1.0, 0.0, false, entry;
    for n := 0 to MAX_HOLD_BARS
      invariant if scaled then level == entry && result == 0.5 && remaining == 0.5
                else level == stop && result == 0.0 && remaining == 1.0
      invariant TradeFrom(entry, stop, after, n, scaled, best) == TradeFrom(entry, stop, after, 0, false, entry)
    {
      var bar, held := after[n], n + 1;
      NextBar(entry, stop, after, n, scaled, best);
      if bar.open <= level {
        Booked(entry, risk, scaled, bar.open, result, remaining);
        return Some(Label(result + remaining * R(entry, risk, bar.open) - costR,
                          if scaled then GapBreakEven else GapStop, held));
      }
      if bar.low <= level {
        Booked(entry, risk, scaled, level, result, remaining);
        return Some(Label(result + remaining * R(entry, risk, level) - costR,
                          if scaled then BreakEven else StopOut, held));
      }
      if !scaled && bar.high >= LevelOf(entry, risk, SCALE_OUT_R) {
        result := result + remaining / 2.0 * SCALE_OUT_R;
        remaining := remaining / 2.0;
        scaled, level := true, Max(level, entry);
        if bar.low <= level {
          Booked(entry, risk, scaled, level, result, remaining);
          return Some(Label(result + remaining * R(entry, risk, level) - costR, BreakEven, held));
        }
      }
      if scaled && bar.high >= target {
        Booked(entry, risk, scaled, target, result, remaining);
        RAtLevel(entry, risk, FINAL_TARGET_R);
        return Some(Label(result + remaining * FINAL_TARGET_R - costR, Target, held));
      }
      best := Max(best, bar.high);
      if !scaled && held >= STALL_BARS && R(entry, risk, best) < STALL_MIN_R {
        Booked(entry, risk, scaled, bar.close, result, remaining);
        return Some(Label(result + remaining * R(entry, risk, bar.close) - costR, Stall, held));
      }
    }
    var last := after[MAX_HOLD_BARS - 1];
    LastBar(entry, stop, after, scaled, best);
    Booked(entry, risk, scaled, last.close, result, remaining);
    outcome := Some(Label(result + remaining * R(entry, risk, last.close) - costR, TimeStop, MAX_HOLD_BARS));
  }

  // ---- the trade, said of the bars alone ----

  /** Some bar before the `n`-th reached one R, so half the position is gone and the stop is at the entry. */
  predicate HalfSold(entry: real, stop: real, after: seq<Bar>, n: nat)
    requires n <= |after|
  {
    exists m :: 0 <= m < n && after[m].high >= entry + (entry - stop)
  }

  function StopBefore(entry: real, stop: real, after: seq<Bar>, n: nat): real
    requires n <= |after|
  {
    if HalfSold(entry, stop, after, n) then entry else stop
  }

  predicate AllBelow(after: seq<Bar>, n: nat, level: real)
    requires n <= |after|
  {
    forall m :: 0 <= m < n ==> after[m].high < level
  }

  /** The trade ends on bar `n` for this reason at this price: a gap through the stop at the open; a touch of it at the
      stop; reaching one R and falling back to the entry on one bar; three R once half is sold; the seventh or a later
      bar with nothing sold and no high yet at half an R, at the close. */
  predicate Ends(entry: real, stop: real, after: seq<Bar>, n: nat, exit: Kind, price: real)
    requires n < |after|
  {
    var bar, risk, level := after[n], entry - stop, StopBefore(entry, stop, after, n);
    var half, now := HalfSold(entry, stop, after, n), HalfSold(entry, stop, after, n + 1);
    if bar.open <= level then price == bar.open && exit == (if half then GapBreakEven else GapStop)
    else if bar.low <= level then price == level && exit == (if half then BreakEven else StopOut)
    else if now && !half && bar.low <= entry then price == entry && exit == BreakEven
    else if now && bar.high >= entry + 3.0 * risk then price == entry + 3.0 * risk && exit == Target
    else !now && n + 1 >= 7 && AllBelow(after, n + 1, entry + 0.5 * risk) && price == bar.close && exit == Stall
  }

  predicate EndsSomehow(entry: real, stop: real, after: seq<Bar>, n: nat)
    requires n < |after|
  {
    || Ends(entry, stop, after, n, Stall, after[n].close)
    || Ends(entry, stop, after, n, Target, entry + 3.0 * (entry - stop))
    || Ends(entry, stop, after, n, BreakEven, entry)
    || Ends(entry, stop, after, n, StopOut, stop)
    || Ends(entry, stop, after, n, GapStop, after[n].open)
    || Ends(entry, stop, after, n, GapBreakEven, after[n].open)
  }

  /** The highest of the entry and the highs so far. */
  ghost predicate IsBest(entry: real, after: seq<Bar>, n: nat, best: real)
    requires n <= |after|
  {
    && best >= entry && (forall m :: 0 <= m < n ==> best >= after[m].high)
    && (best == entry || exists m :: 0 <= m < n && best == after[m].high)
  }

  lemma BelowHalf(entry: real, stop: real, after: seq<Bar>, n: nat, best: real)
    requires stop < entry && n <= |after| && IsBest(entry, after, n, best)
    ensures R(entry, entry - stop, best) < STALL_MIN_R <==> AllBelow(after, n, entry + 0.5 * (entry - stop))
  {
    var risk := entry - stop;
    assert R(entry, risk, best) * risk == best - entry;
    if R(entry, risk, best) < 0.5 { assert R(entry, risk, best) * risk < 0.5 * risk; }
    if R(entry, risk, best) >= 0.5 { assert R(entry, risk, best) * risk >= 0.5 * risk; }
  }

  lemma HalfSplits(entry: real, stop: real, after: seq<Bar>, n: nat)
    requires n < |after|
    ensures HalfSold(entry, stop, after, n + 1)
            <==> HalfSold(entry, stop, after, n) || after[n].high >= entry + (entry - stop)
  {
  }

  lemma OneR(entry: real, risk: real)
    ensures LevelOf(entry, risk, SCALE_OUT_R) == entry + risk
            && LevelOf(entry, risk, FINAL_TARGET_R) == entry + 3.0 * risk
  {
  }

  /** What one bar does is what it must, with everything still held sold at the price. */
  lemma EndsOnBar(entry: real, stop: real, after: seq<Bar>, n: nat, best: real)
    requires stop < entry && n < |after| && IsBest(entry, after, n, best)
    ensures var half, now := HalfSold(entry, stop, after, n), HalfSold(entry, stop, after, n + 1);
            var t := OnBar(entry, stop, after[n], n + 1, half, best);
            && ScaledBy(entry, entry - stop, after[n], half) == now
            && IsBest(entry, after, n + 1, Max(best, after[n].high))
            && (t.Some? <==> EndsSomehow(entry, stop, after, n))
            && (t.Some? ==>
                  && t.value.bars == n + 1
                  && (exists price :: && Ends(entry, stop, after, n, t.value.exit, price)
                                      && t.value.sales == SoldAt(entry, entry - stop, t.value.scaled, price))
                  && t.value.scaled == (if t.value.exit == GapStop || t.value.exit == StopOut || t.value.exit == Stall
                                        then false else true))
  {
    hide R, HalfSold, SoldAt, AllBelow;
    OneR(entry, entry - stop);
    HalfSplits(entry, stop, after, n);
    BelowHalf(entry, stop, after, n + 1, Max(best, after[n].high));
  }

  lemma {:induction false} TradeEnds(entry: real, stop: real, after: seq<Bar>, n: nat, best: real)
    requires stop < entry && MAX_HOLD_BARS <= |after| && n <= MAX_HOLD_BARS && IsBest(entry, after, n, best)
    ensures var t := TradeFrom(entry, stop, after, n, HalfSold(entry, stop, after, n), best);
            EndsAt(entry, stop, after, n, t)
    decreases MAX_HOLD_BARS - n
  {
    hide OnBar, IsBest, SoldAt, HalfSold, Ends, EndsSomehow, ScaledBy;
    if n < MAX_HOLD_BARS {
      EndsOnBar(entry, stop, after, n, best);
      var t := OnBar(entry, stop, after[n], n + 1, HalfSold(entry, stop, after, n), best);
      if t.None? { TradeEnds(entry, stop, after, n + 1, Max(best, after[n].high)); }
    }
  }

  /** The trade ends on the first bar from `from` on that ends it, or at the fifteenth close. */
  ghost predicate EndsAt(entry: real, stop: real, after: seq<Bar>, from: nat, t: Trade)
    requires MAX_HOLD_BARS <= |after|
  {
    var risk := entry - stop;
    if forall m :: from <= m < 15 ==> !EndsSomehow(entry, stop, after, m) then
      && t.exit == TimeStop && t.bars == 15 && t.scaled == HalfSold(entry, stop, after, 15)
      && t.sales == SoldAt(entry, risk, t.scaled, after[14].close)
    else exists n, price ::
      && from <= n < 15 && Ends(entry, stop, after, n, t.exit, price)
      && (forall m :: from <= m < n ==> !EndsSomehow(entry, stop, after, m))
      && t.bars == n + 1 && t.sales == SoldAt(entry, risk, t.scaled, price)
      && (t.scaled <==> t.exit != GapStop && t.exit != StopOut && t.exit != Stall)
  }

  lemma NothingSold(entry: real, stop: real, after: seq<Bar>)
    ensures !HalfSold(entry, stop, after, 0) && IsBest(entry, after, 0, entry)
  {
  }

  /** The result in R of selling what is held at the price: all of it, or half of it beside the half sold at one R. */
  function ResultAt(entry: real, stop: real, scaled: bool, price: real): real
    requires stop < entry
  {
    if scaled then 0.5 + 0.5 * ((price - entry) / (entry - stop)) else (price - entry) / (entry - stop)
  }

  lemma {:induction false} ResultIs(entry: real, stop: real, scaled: bool, price: real)
    requires stop < entry
    ensures ResultOf(entry, entry - stop, SoldAt(entry, entry - stop, scaled, price))
         == ResultAt(entry, stop, scaled, price)
  {
    Shape(entry, entry - stop, scaled, price);
    RAtLevel(entry, entry - stop, SCALE_OUT_R);
  }

  /** The replayed trade ends on the first bar that ends it, for its reason and at its price, or is sold at the
      fifteenth close; and its result is that price's distance from the entry in R, averaged with one R once half is
      sold. */
  lemma {:induction false} LadderIs(entry: real, stop: real, after: seq<Bar>)
    requires stop < entry && MAX_HOLD_BARS <= |after|
    ensures var t := TradeFrom(entry, stop, after, 0, false, entry);
            && EndsAt(entry, stop, after, 0, t)
            && forall scaled, price :: t.sales == SoldAt(entry, entry - stop, scaled, price) ==>
                 ResultOf(entry, entry - stop, t.sales) == ResultAt(entry, stop, scaled, price)
  {
    hide EndsAt, TradeFrom, ResultOf, ResultAt, SoldAt, HalfSold, IsBest;
    NothingSold(entry, stop, after);
    TradeEnds(entry, stop, after, 0, entry);
    forall scaled, price
      ensures ResultOf(entry, entry - stop, SoldAt(entry, entry - stop, scaled, price))
              == ResultAt(entry, stop, scaled, price)
    {
      ResultIs(entry, stop, scaled, price);
    }
  }

  // ---- bounds ----

  predicate WellFormed(bars: seq<Bar>) {
    forall i :: 0 <= i < |bars| ==>
      bars[i].low <= bars[i].open <= bars[i].high && bars[i].low <= bars[i].close <= bars[i].high
  }

  predicate IsGap(k: Kind) { k == GapStop || k == GapBreakEven }

  /** What the last bar before `n` left behind when it did not exit. */
  predicate Survived(entry: real, stop: real, after: seq<Bar>, n: nat, scaled: bool)
    requires n <= |after|
  {
    n == 0 || (
      && after[n - 1].low > Stop(entry, stop, scaled)
      && after[n - 1].high < LevelOf(entry, entry - stop, if scaled then FINAL_TARGET_R else SCALE_OUT_R))
  }

  /** The last sale's price against the levels that were in force. */
  ghost predicate Bounded(entry: real, stop: real, t: Trade) {
    var risk := entry - stop;
    exists price ::
      && t.sales == SoldAt(entry, risk, t.scaled, price)
      && price <= LevelOf(entry, risk, if t.scaled then FINAL_TARGET_R else SCALE_OUT_R)
      && (!IsGap(t.exit) ==> price >= Stop(entry, stop, t.scaled))
  }

  lemma BoundedAt(entry: real, stop: real, t: Trade, price: real)
    requires t.sales == SoldAt(entry, entry - stop, t.scaled, price)
    requires price <= LevelOf(entry, entry - stop, if t.scaled then FINAL_TARGET_R else SCALE_OUT_R)
    requires !IsGap(t.exit) ==> price >= Stop(entry, stop, t.scaled)
    ensures Bounded(entry, stop, t)
  {
  }

  lemma {:induction false} EveryExitIsBounded(entry: real, stop: real, after: seq<Bar>, n: nat, scaled: bool,
                                              best: real)
    requires stop < entry && MAX_HOLD_BARS <= |after| && n <= MAX_HOLD_BARS && WellFormed(after)
    requires Survived(entry, stop, after, n, scaled) && (n == MAX_HOLD_BARS ==> n > 0)
    ensures Bounded(entry, stop, TradeFrom(entry, stop, after, n, scaled, best))
    decreases MAX_HOLD_BARS - n
  {
    hide Bounded, R, SoldAt;
    var risk := entry - stop;
    var t := TradeFrom(entry, stop, after, n, scaled, best);
    if n == MAX_HOLD_BARS {
      BoundedAt(entry, stop, t, after[n - 1].close);
    } else {
      var bar := after[n];
      if bar.open <= Stop(entry, stop, scaled) {
        BoundedAt(entry, stop, t, bar.open);
      } else if bar.low <= Stop(entry, stop, scaled) {
        BoundedAt(entry, stop, t, Stop(entry, stop, scaled));
      } else {
        var now := ScaledBy(entry, risk, bar, scaled);
        if now && !scaled && bar.low <= entry {
          BoundedAt(entry, stop, t, entry);
        } else if now && bar.high >= LevelOf(entry, risk, FINAL_TARGET_R) {
          BoundedAt(entry, stop, t, LevelOf(entry, risk, FINAL_TARGET_R));
        } else if !now && n + 1 >= STALL_BARS && R(entry, risk, Max(best, bar.high)) < STALL_MIN_R {
          BoundedAt(entry, stop, t, bar.close);
        } else {
          EveryExitIsBounded(entry, stop, after, n + 1, now, Max(best, bar.high));
        }
      }
    }
  }

  /** For well-formed bars: the whole position is sold exactly once over; no outcome before cost exceeds 2R; no
      outcome but a gap is below -1R; and after scaling out no outcome but a gap is below 0.5R. */
  lemma {:induction false} LadderBounds(entry: real, stop: real, after: seq<Bar>)
    requires stop < entry && MAX_HOLD_BARS <= |after| && WellFormed(after)
    ensures var t := TradeFrom(entry, stop, after, 0, false, entry);
            var r := ResultOf(entry, entry - stop, t.sales);
            && Fractions(t.sales) == 1.0
            && r <= 2.0
            && (!IsGap(t.exit) ==> r >= -1.0)
            && (!IsGap(t.exit) && t.scaled ==> r >= 0.5)
  {
    hide R, LevelOf, SoldAt, Fractions, ResultOf, TradeFrom, WellFormed;
    var risk := entry - stop;
    EveryExitIsBounded(entry, stop, after, 0, false, entry);
    var t := TradeFrom(entry, stop, after, 0, false, entry);
    var price :| && t.sales == SoldAt(entry, risk, t.scaled, price)
                 && price <= LevelOf(entry, risk, if t.scaled then FINAL_TARGET_R else SCALE_OUT_R)
                 && (!IsGap(t.exit) ==> price >= Stop(entry, stop, t.scaled));
    Shape(entry, risk, t.scaled, price);
    RAtLevel(entry, risk, SCALE_OUT_R);
    RAtLevel(entry, risk, FINAL_TARGET_R);
    RMonotone(entry, risk, price, LevelOf(entry, risk, if t.scaled then FINAL_TARGET_R else SCALE_OUT_R));
    EntryAndStop(entry, stop);
    if !IsGap(t.exit) { RMonotone(entry, risk, Stop(entry, stop, t.scaled), price); }
  }

  lemma EntryAndStop(entry: real, stop: real)
    requires stop < entry
    ensures R(entry, entry - stop, entry) == 0.0 && R(entry, entry - stop, stop) == -1.0
  {
    var risk := entry - stop;
    assert stop - entry == -risk;
    assert -risk / risk == -1.0;
  }
}
