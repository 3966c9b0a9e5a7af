/** The two exit simulators and the milestone walker over one run of daily bars. The trailing range (ATR) is any
    function of the bars it is shown. Days are calendar-day numbers. */
module ExitWalkers {
  import opened Common

  const ATR_TRAIL_LOOKBACK_DAYS: nat := 30

  datatype Bar = Bar(day: int, open: real, high: real, low: real, close: real)

  datatype Entry = Entry(index: nat, day: int, price: real, stop: real)

  datatype Policy = Policy(triggerPct: real, maxHoldDays: int, trailing: real, atr: seq<Bar> -> Option<real>)

  datatype Reason = Stop | TimeStop | TargetPrice | Censored

  datatype Outcome = Outcome(day: Option<int>, price: Option<real>, reason: Reason, r: Option<real>)

  const CENSORED := Outcome(None, None, Censored, None)

  /** The dictionaries of the code need a bar for every index and distinct dates; the gain needs a priced entry. */
  predicate ValidRun(e: Entry, bars: seq<Bar>) {
    e.index < |bars| && e.price != 0.0
  }

  function Risk(e: Entry): real { e.price - e.stop }

  function RMultiple(e: Entry, exit: real): real {
    if Risk(e) <= 0.0 then 0.0 else (exit - e.price) / Risk(e)
  }

  function LevelAt(e: Entry, targetR: real): real { e.price + Risk(e) * targetR }

  /** The level a target policy exits at; none without a positive risk. */
  function Level(e: Entry, targetR: real): Option<real> {
    if Risk(e) > 0.0 then Some(LevelAt(e, targetR)) else None
  }

  // ---- one bar ----

  /** The highest close so far, and the ratcheted stop once break-even is earned. */
  datatype Walk = Walk(extreme: real, ratcheted: Option<real>)

  function Operative(e: Entry, w: Walk): real { w.ratcheted.GetOr(e.stop) }

  /** How far below the extreme the trail runs. */
  function TrailWidth(atr: real, trailing: real): real { atr * trailing }

  /** The break-even floor, raised by the trail, never below what it was. */
  function Ratchet(e: Entry, extreme: real, atr: Option<real>, trailing: real, gainPct: real, triggerPct: real,
                   current: Option<real>): Option<real> {
    if current.None? && gainPct < triggerPct then None
    else
      var candidate :=
        if atr.Some? && trailing > 0.0 then Max(e.price, extreme - TrailWidth(atr.value, trailing)) else e.price;
      Some(if current.None? then candidate else Max(current.value, candidate))
  }

  function GainPct(e: Entry, close: real): real
    requires e.price != 0.0
  {
    (close - e.price) / e.price * 100.0
  }

  /** Only bars up to the current one are visible. */
  function AtrAt(p: Policy, bars: seq<Bar>, i: nat): Option<real>
    requires i < |bars|
  {
    if i < ATR_TRAIL_LOOKBACK_DAYS then None else p.atr(bars[i - ATR_TRAIL_LOOKBACK_DAYS + 1..i + 1])
  }

  function Advanced(e: Entry, p: Policy, bars: seq<Bar>, i: nat, w: Walk): Walk
    requires e.price != 0.0 && i < |bars|
  {
    var extreme := Max(w.extreme, bars[i].close);
    Walk(extreme, Ratchet(e, extreme, AtrAt(p, bars, i), p.trailing, GainPct(e, bars[i].close), p.triggerPct,
      w.ratcheted))
  }

  /** Gap through the stop, touch of the stop, gap through the target, touch of the target, time: in that order. */
  function ExitOn(e: Entry, p: Policy, bar: Bar, w: Walk, targetR: Option<real>): Option<Outcome> {
    var stop := Operative(e, w);
    var level := if targetR.Some? then Level(e, targetR.value) else None;
    if bar.open <= stop then Some(Outcome(Some(bar.day), Some(bar.open), Stop, Some(RMultiple(e, bar.open))))
    else if bar.low <= stop then Some(Outcome(Some(bar.day), Some(stop), Stop, Some(RMultiple(e, stop))))
    else if level.Some? && bar.open >= level.value then
      Some(Outcome(Some(bar.day), Some(bar.open), TargetPrice, Some(RMultiple(e, bar.open))))
    else if level.Some? && bar.high >= level.value then
      Some(Outcome(Some(bar.day), Some(level.value), TargetPrice, targetR))
    else if bar.day - e.day >= p.maxHoldDays then
      Some(Outcome(Some(bar.day), Some(bar.close), TimeStop, Some(RMultiple(e, bar.close))))
    else None
  }

  // ---- the walk ----

  datatype Exit = NoExit | Exit(index: nat, outcome: Outcome)

  /** The first bar from `i` on that exits. */
  function FirstExit(e: Entry, p: Policy, bars: seq<Bar>, i: nat, w: Walk, targetR: Option<real>): (x: Exit)
    requires e.price != 0.0 && i <= |bars|
    ensures x.Exit? ==> i <= x.index < |bars|
    decreases |bars| - i
  {
    if i == |bars| then NoExit
    else
      var now := ExitOn(e, p, bars[i], w, targetR);
      if now.Some? then Exit(i, now.value) else FirstExit(e, p, bars, i + 1, Advanced(e, p, bars, i, w), targetR)
  }

  function Begin(e: Entry): Walk { Walk(e.price, None) }

  function BaselineExit(e: Entry, p: Policy, bars: seq<Bar>): Exit
    requires ValidRun(e, bars)
  {
    FirstExit(e, p, bars, e.index + 1, Begin(e), None)
  }

  function TargetExit(e: Entry, p: Policy, bars: seq<Bar>, targetR: real): Exit
    requires ValidRun(e, bars)
  {
    FirstExit(e, p, bars, e.index + 1, Begin(e), Some(targetR))
  }

  function OutcomeOf(x: Exit): Outcome { if x.NoExit? then CENSORED else x.outcome }

  method SimulateExit(e: Entry, p: Policy, bars: seq<Bar>) returns (r: Outcome)
    requires ValidRun(e, bars)
    ensures r == OutcomeOf(BaselineExit(e, p, bars))
  {
    var extreme, ratcheted: Option<real> := e.price, None;
    for i := e.index + 1 to |bars|
      invariant FirstExit(e, p, bars, i, Walk(extreme, ratcheted), None) == BaselineExit(e, p, bars)
    {
      ghost var w := Walk(extreme, ratcheted);
      var bar := bars[i];
      extreme := Max(extreme, bar.close);
      var stop := if ratcheted.Some? then ratcheted.value else e.stop;
      if bar.open <= stop { return Outcome(Some(bar.day), Some(bar.open), Stop, Some(RMultiple(e, bar.open))); }
      if bar.low <= stop { return Outcome(Some(bar.day), Some(stop), Stop, Some(RMultiple(e, stop))); }
      if bar.day - e.day >= p.maxHoldDays {
        return Outcome(Some(bar.day), Some(bar.close), TimeStop, Some(RMultiple(e, bar.close)));
      }
      ratcheted := Ratchet(e, extreme, AtrAt(p, bars, i), p.trailing, GainPct(e, bar.close), p.triggerPct, ratcheted);
      assert Walk(extreme, ratcheted) == Advanced(e, p, bars, i, w);
    }
    r := CENSORED;
  }

  method SimulateExitWithTarget(e: Entry, p: Policy, bars: seq<Bar>, targetR: real) returns (r: Outcome)
    requires ValidRun(e, bars)
    ensures r == OutcomeOf(TargetExit(e, p, bars, targetR))
  {
    var level := Level(e, targetR);
    var extreme, ratcheted: Option<real> := e.price, None;
    for i := e.index + 1 to |bars|
      invariant FirstExit(e, p, bars, i, Walk(extreme, ratcheted), Some(targetR)) == TargetExit(e, p, bars, targetR)
    {
      ghost var w := Walk(extreme, ratcheted);
      var bar := bars[i];
      extreme := Max(extreme, bar.close);
      var stop := if ratcheted.Some? then ratcheted.value else e.stop;
      if bar.open <= stop { return Outcome(Some(bar.day), Some(bar.open), Stop, Some(RMultiple(e, bar.open))); }
      if bar.low <= stop { return Outcome(Some(bar.day), Some(stop), Stop, Some(RMultiple(e, stop))); }
      if level.Some? {
        if bar.open >= level.value {
          return Outcome(Some(bar.day), Some(bar.open), TargetPrice, Some(RMultiple(e, bar.open)));
        }
        if bar.high >= level.value { return Outcome(Some(bar.day), Some(level.value), TargetPrice, Some(targetR)); }
      }
      if bar.day - e.day >= p.maxHoldDays {
        return Outcome(Some(bar.day), Some(bar.close), TimeStop, Some(RMultiple(e, bar.close)));
      }
      ratcheted := Ratchet(e, extreme, AtrAt(p, bars, i), p.trailing, GainPct(e, bar.close), p.triggerPct, ratcheted);
      assert Walk(extreme, ratcheted) == Advanced(e, p, bars, i, w);
    }
    r := CENSORED;
  }

  // ---- the milestone walker ----

  datatype Milestone = Milestone(reached: bool, bars: Option<int>, rAtExit: Option<real>)

  function DayIndex(bars: seq<Bar>): map<int, nat> {
    if bars == [] then map[] else DayIndex(bars[..|bars| - 1])[bars[|bars| - 1].day := |bars| - 1]
  }

  /** The first bar in the range whose high touches the level. */
  function FirstTouch(bars: seq<Bar>, i: nat, end: int, level: real): (k: Option<nat>)
    requires end <= |bars|
    ensures k.Some? ==> i <= k.value < end && bars[k.value].high >= level
    ensures k.Some? ==> forall j :: i <= j < k.value ==> bars[j].high < level
    ensures k.None? ==> forall j :: i <= j < end ==> bars[j].high < level
    decreases end - i
  {
    if i >= end then None else if bars[i].high >= level then Some(i) else FirstTouch(bars, i + 1, end, level)
  }

  /** The bars held before the baseline's exit: a stop's own bar is not one of them. */
  function HeldUntil(bars: seq<Bar>, baseline: Outcome, index: map<int, nat>): int
    requires baseline.day.Some? ==> baseline.day.value in index
  {
    (if baseline.day.Some? then index[baseline.day.value] else |bars| - 1)
      - (if baseline.reason == Stop then 1 else 0) + 1
  }

  function MilestoneOf(e: Entry, bars: seq<Bar>, baseline: Outcome, targetR: real, index: map<int, nat>): Milestone
    requires baseline.day.Some? ==> baseline.day.value in index && index[baseline.day.value] < |bars|
  {
    if Risk(e) <= 0.0 then Milestone(false, None, None)
    else
      var k := FirstTouch(bars, e.index + 1, HeldUntil(bars, baseline, index), LevelAt(e, targetR));
      if k.Some? then Milestone(true, Some(k.value - e.index), baseline.r) else Milestone(false, None, baseline.r)
  }

  method MilestoneEvidence(e: Entry, bars: seq<Bar>, baseline: Outcome, targetR: real, index: map<int, nat>)
    returns (m: Milestone)
    requires baseline.day.Some? ==> baseline.day.value in index && index[baseline.day.value] < |bars|
    ensures m == MilestoneOf(e, bars, baseline, targetR, index)
    ensures m.rAtExit == if e.price > e.stop then baseline.r else None
  {
    hide LevelAt;
    var risk := Risk(e);
    if risk <= 0.0 { return Milestone(false, None, None); }
    var level := LevelAt(e, targetR);
    var end := if baseline.day.Some? then index[baseline.day.value] else |bars| - 1;
    if baseline.reason == Stop { end := end - 1; }
    assert end + 1 == HeldUntil(bars, baseline, index);
    ghost var touch := FirstTouch(bars, e.index + 1, end + 1, level);
    assert MilestoneOf(e, bars, baseline, targetR, index)
      == if touch.Some? then Milestone(true, Some(touch.value - e.index), baseline.r)
        else Milestone(false, None, baseline.r);
    var i := e.index + 1;
    while i < end + 1
      invariant e.index + 1 <= i
      invariant FirstTouch(bars, i, end + 1, level) == touch
    {
      if bars[i].high >= level { return Milestone(true, Some(i - e.index), baseline.r); }
      i := i + 1;
    }
    m := Milestone(false, None, baseline.r);
  }

  // ---- lockstep ----

  /** No bar's high is below its open. */
  predicate HighsCoverOpens(bars: seq<Bar>) {
    forall i :: 0 <= i < |bars| ==> bars[i].high >= bars[i].open
  }

  predicate DistinctDays(bars: seq<Bar>) {
    forall i, j :: 0 <= i < j < |bars| ==> bars[i].day != bars[j].day
  }

  lemma {:induction false} DayIndexIs(bars: seq<Bar>)
    requires DistinctDays(bars)
    ensures forall i :: 0 <= i < |bars| ==> bars[i].day in DayIndex(bars) && DayIndex(bars)[bars[i].day] == i
  {
    if bars != [] {
      DayIndexIs(bars[..|bars| - 1]);
      assert forall i :: 0 <= i < |bars| - 1 ==> bars[..|bars| - 1][i] == bars[i];
    }
  }

  /** The bars the baseline still holds when a target could be touched: up to its exit, less a stop's own bar. */
  function HeldTo(bars: seq<Bar>, x: Exit): int {
    if x.NoExit? then |bars| else if x.outcome.reason == Stop then x.index else x.index + 1
  }

  /** A bar on which the target policy would sell at its target: its open or its high is at the level. */
  predicate Reaches(bar: Bar, level: real) { bar.open >= level || bar.high >= level }

  function FirstReach(bars: seq<Bar>, i: nat, end: int, level: real): (k: Option<nat>)
    requires end <= |bars|
    ensures k.Some? ==> i <= k.value < end && Reaches(bars[k.value], level)
    ensures k.Some? ==> forall j :: i <= j < k.value ==> !Reaches(bars[j], level)
    ensures k.None? ==> forall j :: i <= j < end ==> !Reaches(bars[j], level)
    decreases end - i
  {
    if i >= end then None else if Reaches(bars[i], level) then Some(i) else FirstReach(bars, i + 1, end, level)
  }

  /** From any common bar on: the target policy takes the target exactly at the first held bar that reaches the level,
      and otherwise does exactly what the baseline does. */
  lemma {:induction false} InStep(e: Entry, p: Policy, bars: seq<Bar>, i: nat, w: Walk, targetR: real)
    requires e.price != 0.0 && i <= |bars| && Risk(e) > 0.0
    ensures var base, target := FirstExit(e, p, bars, i, w, None), FirstExit(e, p, bars, i, w, Some(targetR));
            && HeldTo(bars, base) <= |bars|
            && var reach := FirstReach(bars, i, HeldTo(bars, base), LevelAt(e, targetR));
               if reach.Some? then target.Exit? && target.index == reach.value && target.outcome.reason == TargetPrice
               else target == base && (target.Exit? ==> target.outcome.reason != TargetPrice)
    decreases |bars| - i
  {
    hide Operative, Advanced, RMultiple, LevelAt;
    if i < |bars| {
      var level := LevelAt(e, targetR);
      assert Level(e, targetR) == Some(level);
      if ExitOn(e, p, bars[i], w, None).None? && !Reaches(bars[i], level) {
        InStep(e, p, bars, i + 1, Advanced(e, p, bars, i, w), targetR);
      }
    }
  }

  /** The target exit and the milestone name the same bar, `k` bars after entry, or neither does. */
  predicate SameBar(e: Entry, target: Exit, m: Milestone, k: int) {
    (target.Exit? && target.outcome.reason == TargetPrice && target.index == e.index + k)
      <==> (m.reached && m.bars == Some(k))
  }

  /** What the documentation promises: the target policy exits with its target k bars after entry exactly when the
      milestone walker reports the level reached in k bars, and when it is not reached both simulators give the same
      outcome. */
  ghost predicate Lockstep(e: Entry, base: Exit, target: Exit, m: Milestone) {
    (forall k :: SameBar(e, target, m, k)) && (!m.reached ==> OutcomeOf(target) == OutcomeOf(base))
  }

  /** A held bar opens at the level with its high below it, and no held bar before it had its high at the level. */
  predicate OpensOver(bars: seq<Bar>, from: nat, end: int, level: real)
    requires end <= |bars|
  {
    exists b :: from <= b < end && bars[b].open >= level > bars[b].high
                && forall j :: from <= j < b ==> bars[j].high < level
  }

  lemma {:induction false} ReachIsTouch(bars: seq<Bar>, i: nat, end: int, level: real)
    requires end <= |bars|
    ensures FirstReach(bars, i, end, level) == FirstTouch(bars, i, end, level) <==> !OpensOver(bars, i, end, level)
    ensures FirstReach(bars, i, end, level).None? ==> FirstTouch(bars, i, end, level).None?
  {
    var reach, touch := FirstReach(bars, i, end, level), FirstTouch(bars, i, end, level);
    if reach.Some? && bars[reach.value].high < level {
      assert OpensOver(bars, i, end, level);
    } else if reach.Some? {
      assert forall j :: i <= j < reach.value ==> !Reaches(bars[j], level);
    } else {
      assert forall j :: i <= j < end ==> !Reaches(bars[j], level);
    }
  }

  /** The lockstep holds exactly when no held bar opens over the level with its high below it: the guard the milestone
      walker does not have. */
  lemma {:induction false} TargetAndMilestoneInLockstep(e: Entry, p: Policy, bars: seq<Bar>, targetR: real)
    requires ValidRun(e, bars) && DistinctDays(bars)
    ensures var base, target := BaselineExit(e, p, bars), TargetExit(e, p, bars, targetR);
            && (OutcomeOf(base).day.Some? ==> OutcomeOf(base).day.value in DayIndex(bars)
                                               && DayIndex(bars)[OutcomeOf(base).day.value] < |bars|)
            && HeldTo(bars, base) <= |bars|
            && (Lockstep(e, base, target, MilestoneOf(e, bars, OutcomeOf(base), targetR, DayIndex(bars)))
                <==> Risk(e) <= 0.0 || !OpensOver(bars, e.index + 1, HeldTo(bars, base), LevelAt(e, targetR)))
  {
    hide FirstExit, FirstTouch, FirstReach, DayIndex, LevelAt, DistinctDays, OpensOver, SameBar;
    DayIndexIs(bars);
    var base, target := BaselineExit(e, p, bars), TargetExit(e, p, bars, targetR);
    ExitDay(e, p, bars, e.index + 1, Begin(e), None);
    var m := MilestoneOf(e, bars, OutcomeOf(base), targetR, DayIndex(bars));
    if Risk(e) > 0.0 {
      InStep(e, p, bars, e.index + 1, Begin(e), targetR);
      assert HeldUntil(bars, OutcomeOf(base), DayIndex(bars)) == HeldTo(bars, base);
      ReachIsTouch(bars, e.index + 1, HeldTo(bars, base), LevelAt(e, targetR));
      BarsAgree(e, base, target, m, FirstReach(bars, e.index + 1, HeldTo(bars, base), LevelAt(e, targetR)),
                FirstTouch(bars, e.index + 1, HeldTo(bars, base), LevelAt(e, targetR)));
    } else {
      NoRiskNoTarget(e, p, bars, e.index + 1, Begin(e), targetR);
      BarsAgree(e, base, target, m, None, None);
    }
  }

  /** Given where each walker stops, they agree exactly when they stop at the same bar. */
  lemma BarsAgree(e: Entry, base: Exit, target: Exit, m: Milestone, reach: Option<nat>, touch: Option<nat>)
    requires if reach.Some? then target.Exit? && target.index == reach.value && target.outcome.reason == TargetPrice
             else target == base && (target.Exit? ==> target.outcome.reason != TargetPrice)
    requires m.reached <==> touch.Some?
    requires touch.Some? ==> m.bars == Some(touch.value - e.index)
    requires reach.None? ==> touch.None?
    ensures Lockstep(e, base, target, m) <==> reach == touch
  {
    if reach.Some? { assert SameBar(e, target, m, reach.value - e.index) <==> reach == touch; }
    assert reach == touch ==> forall k :: SameBar(e, target, m, k);
  }

  /** In particular on bars whose high covers the open. */
  lemma {:induction false} SaneBarsKeepLockstep(e: Entry, p: Policy, bars: seq<Bar>, targetR: real)
    requires ValidRun(e, bars) && DistinctDays(bars) && HighsCoverOpens(bars)
    ensures var base, target := BaselineExit(e, p, bars), TargetExit(e, p, bars, targetR);
            && (OutcomeOf(base).day.Some? ==> OutcomeOf(base).day.value in DayIndex(bars)
                                               && DayIndex(bars)[OutcomeOf(base).day.value] < |bars|)
            && Lockstep(e, base, target, MilestoneOf(e, bars, OutcomeOf(base), targetR, DayIndex(bars)))
  {
    hide FirstExit, DayIndex, LevelAt, Lockstep, MilestoneOf;
    TargetAndMilestoneInLockstep(e, p, bars, targetR);
  }

  lemma {:induction false} ExitDay(e: Entry, p: Policy, bars: seq<Bar>, i: nat, w: Walk, targetR: Option<real>)
    requires e.price != 0.0 && i <= |bars|
    ensures var x := FirstExit(e, p, bars, i, w, targetR);
            x.Exit? ==>
              && x.outcome.day == Some(bars[x.index].day) && x.outcome.price.Some?
              && x.outcome.reason != Censored
    decreases |bars| - i
  {
    hide Advanced;
    if i < |bars| && ExitOn(e, p, bars[i], w, targetR).None? {
      ExitDay(e, p, bars, i + 1, Advanced(e, p, bars, i, w), targetR);
    }
  }

  lemma {:induction false} NoRiskNoTarget(e: Entry, p: Policy, bars: seq<Bar>, i: nat, w: Walk, targetR: real)
    requires e.price != 0.0 && i <= |bars| && Risk(e) <= 0.0
    ensures var base, target := FirstExit(e, p, bars, i, w, None), FirstExit(e, p, bars, i, w, Some(targetR));
            target == base && (base.Exit? ==> base.outcome.reason != TargetPrice)
    decreases |bars| - i
  {
    hide Advanced;
    if i < |bars| && ExitOn(e, p, bars[i], w, None).None? {
      NoRiskNoTarget(e, p, bars, i + 1, Advanced(e, p, bars, i, w), targetR);
    }
  }

  /** Without the bar sanity the two disagree: an open above the level with a lower high is a target exit the
      milestone walker never sees. */
  lemma {:induction false} InconsistentBarBreaksLockstep(p: Policy, e: Entry, bars: seq<Bar>)
    requires p.maxHoldDays > 1 && p.triggerPct > 1000.0
    requires e == Entry(0, 0, 10.0, 9.0) && bars == [Bar(0, 10.0, 10.0, 10.0, 10.0), Bar(1, 13.0, 11.0, 11.0, 11.0)]
    ensures var base, target := BaselineExit(e, p, bars), TargetExit(e, p, bars, 2.0);
            && base.NoExit? && target.Exit? && target.outcome.reason == TargetPrice
            && !MilestoneOf(e, bars, CENSORED, 2.0, DayIndex(bars)).reached
  {
    assert Level(e, 2.0) == Some(12.0);
    assert ExitOn(e, p, bars[1], Begin(e), None) == None;
    assert FirstExit(e, p, bars, 2, Advanced(e, p, bars, 1, Begin(e)), None) == NoExit;
  }

  // ---- the ratchet ----

  /** The walk's state entering bar `i`, were there no exit before it. */
  function StateAt(e: Entry, p: Policy, bars: seq<Bar>, i: nat): Walk
    requires ValidRun(e, bars) && e.index < i <= |bars|
    decreases i
  {
    if i == e.index + 1 then Begin(e) else Advanced(e, p, bars, i - 1, StateAt(e, p, bars, i - 1))
  }

  /** With a positive initial risk the operative stop never falls, and once ratcheted it is at least the entry price. */
  lemma {:induction false} StopNeverFalls(e: Entry, p: Policy, bars: seq<Bar>, i: nat, j: nat)
    requires ValidRun(e, bars) && Risk(e) > 0.0 && e.index < i <= j <= |bars|
    ensures Operative(e, StateAt(e, p, bars, i)) <= Operative(e, StateAt(e, p, bars, j))
    ensures StateAt(e, p, bars, j).ratcheted.Some? ==> Operative(e, StateAt(e, p, bars, j)) >= e.price
    ensures StateAt(e, p, bars, i).ratcheted.Some? ==> StateAt(e, p, bars, j).ratcheted.Some?
    ensures Operative(e, StateAt(e, p, bars, j)) >= e.stop
    decreases j
  {
    if j > e.index + 1 {
      StopNeverFalls(e, p, bars, if i < j then i else i - 1, j - 1);
    }
  }

  /** Every exit is decided by the state entering its bar, and no earlier bar exits. */
  lemma {:induction false} ExitsFromState(e: Entry, p: Policy, bars: seq<Bar>, i: nat, targetR: Option<real>)
    requires ValidRun(e, bars) && e.index < i <= |bars|
    ensures var x := FirstExit(e, p, bars, i, StateAt(e, p, bars, i), targetR);
            x.Exit? ==> && ExitOn(e, p, bars[x.index], StateAt(e, p, bars, x.index), targetR) == Some(x.outcome)
                        && forall j :: i <= j < x.index ==>
                           ExitOn(e, p, bars[j], StateAt(e, p, bars, j), targetR) == None
    decreases |bars| - i
  {
    hide ExitOn, Advanced;
    if i < |bars| && ExitOn(e, p, bars[i], StateAt(e, p, bars, i), targetR).None? {
      ExitsFromState(e, p, bars, i + 1, targetR);
    }
  }

  /** A stop that is touched, not gapped through, once ratcheted never loses: its R is at least zero. */
  lemma {:induction false} RatchetedStopNeverLoses(e: Entry, p: Policy, bars: seq<Bar>)
    requires ValidRun(e, bars) && Risk(e) > 0.0
    ensures var x := BaselineExit(e, p, bars);
            (x.Exit? && x.outcome.reason == Stop && StateAt(e, p, bars, x.index).ratcheted.Some?
             && bars[x.index].open > Operative(e, StateAt(e, p, bars, x.index)))
            ==> (x.outcome.r.Some? && x.outcome.r.value >= 0.0)
  {
    hide StateAt, FirstExit, RMultiple, Operative;
    var x := BaselineExit(e, p, bars);
    ExitsFromState(e, p, bars, e.index + 1, None);
    assert StateAt(e, p, bars, e.index + 1) == Begin(e) by { StartState(e, p, bars); }
    if x.Exit? {
      StopNeverFalls(e, p, bars, x.index, x.index);
      NoLossAbove(e, Operative(e, StateAt(e, p, bars, x.index)));
    }
  }

  lemma StartState(e: Entry, p: Policy, bars: seq<Bar>)
    requires ValidRun(e, bars)
    ensures StateAt(e, p, bars, e.index + 1) == Begin(e)
  {
  }

  lemma NoLossAbove(e: Entry, exit: real)
    requires Risk(e) > 0.0
    ensures exit >= e.price ==> RMultiple(e, exit) >= 0.0
  {
  }

  // ---- the stop in force, and the exit, said of the bars alone ----

  /** Some close up to bar `k` has gained enough for break-even. */
  predicate Earned(e: Entry, p: Policy, bars: seq<Bar>, k: int)
    requires e.price != 0.0 && k < |bars|
  {
    exists f :: e.index < f <= k && (bars[f].close - e.price) / e.price * 100.0 >= p.triggerPct
  }

  /** What bar `k` asks of the stop below the entry price or the close of bar `j`: the trailing multiple of the range of
      the thirty bars that end on it. */
  predicate Trails(e: Entry, p: Policy, bars: seq<Bar>, k: int, j: int, x: real)
    requires e.price != 0.0 && k < |bars|
  {
    && e.index <= j <= k && Earned(e, p, bars, k) && p.trailing > 0.0 && k >= 30
    && var atr := p.atr(bars[k - 29..k + 1]);
       atr.Some? && x == (if j == e.index then e.price else bars[j].close) - TrailWidth(atr.value, p.trailing)
  }

  /** The trail runs the trailing multiple of the range below the close. */
  lemma TrailWidthIs(atr: real, trailing: real)
    requires trailing != 0.0
    ensures TrailWidth(atr, trailing) / trailing == atr
  {
  }

  /** The least level that is at least the entry price and whatever the bars before `i` ask. */
  ghost predicate LeastStop(e: Entry, p: Policy, bars: seq<Bar>, i: int, s: real)
    requires e.price != 0.0 && i <= |bars|
  {
    && s >= e.price
    && (forall k, j, x :: e.index < k < i && Trails(e, p, bars, k, j, x) ==> s >= x)
    && (s == e.price || exists k, j :: e.index < k < i && Trails(e, p, bars, k, j, s))
  }

  /** The highest of the entry price and the closes so far. */
  ghost predicate IsExtreme(e: Entry, bars: seq<Bar>, i: int, x: real)
    requires i <= |bars|
  {
    && x >= e.price && (forall j :: e.index < j < i ==> x >= bars[j].close)
    && (x == e.price || exists j :: e.index < j < i && x == bars[j].close)
  }

  lemma {:induction false} ExtremeIs(e: Entry, p: Policy, bars: seq<Bar>, i: nat)
    requires ValidRun(e, bars) && e.index < i <= |bars|
    ensures IsExtreme(e, bars, i, StateAt(e, p, bars, i).extreme)
    decreases i
  {
    hide Ratchet, AtrAt, GainPct;
    if i > e.index + 1 { ExtremeIs(e, p, bars, i - 1); }
  }

  lemma EarnedSplits(e: Entry, p: Policy, bars: seq<Bar>, k: nat)
    requires ValidRun(e, bars) && e.index < k < |bars|
    ensures Earned(e, p, bars, k) <==> Earned(e, p, bars, k - 1) || GainPct(e, bars[k].close) >= p.triggerPct
  {
    assert GainPct(e, bars[k].close) == (bars[k].close - e.price) / e.price * 100.0;
  }

  lemma EarnedForGood(e: Entry, p: Policy, bars: seq<Bar>, k: int, m: int)
    requires ValidRun(e, bars) && k <= m < |bars| && Earned(e, p, bars, k)
    ensures Earned(e, p, bars, m)
  {
  }

  /** The highest of a bar's trails, when it has any: the one below the extreme. */
  ghost predicate TopTrail(e: Entry, p: Policy, bars: seq<Bar>, k: int, top: Option<real>)
    requires e.price != 0.0 && k < |bars|
  {
    && (forall j, x :: Trails(e, p, bars, k, j, x) ==> top.Some? && top.value >= x)
    && (top.Some? ==> exists j :: Trails(e, p, bars, k, j, top.value))
  }

  function TrailBelow(extreme: real, atr: Option<real>, trailing: real): Option<real> {
    if atr.Some? && trailing > 0.0 then Some(extreme - TrailWidth(atr.value, trailing)) else None
  }

  lemma TopTrailIs(e: Entry, p: Policy, bars: seq<Bar>, k: nat, extreme: real)
    requires ValidRun(e, bars) && e.index < k < |bars| && IsExtreme(e, bars, k + 1, extreme) && Earned(e, p, bars, k)
    ensures TopTrail(e, p, bars, k, TrailBelow(extreme, AtrAt(p, bars, k), p.trailing))
  {
    hide Earned, TrailWidth;
    var atr := AtrAt(p, bars, k);
    if atr.Some? && p.trailing > 0.0 {
      var fall := TrailWidth(atr.value, p.trailing);
      if extreme == e.price {
        assert Trails(e, p, bars, k, e.index, extreme - fall);
      } else {
        var j :| e.index < j < k + 1 && extreme == bars[j].close;
        assert Trails(e, p, bars, k, j, extreme - fall);
      }
    }
  }

  /** One bar's ratchet: up to the entry price, its highest trail and what it was, whichever is highest. */
  lemma RatchetIs(e: Entry, extreme: real, atr: Option<real>, trailing: real, gainPct: real, triggerPct: real,
                  current: Option<real>, top: Option<real>)
    requires top == TrailBelow(extreme, atr, trailing)
    ensures var next := Ratchet(e, extreme, atr, trailing, gainPct, triggerPct, current);
            && (next.Some? <==> current.Some? || gainPct >= triggerPct)
            && (next.Some? ==>
                  && next.value >= e.price && (current.Some? ==> next.value >= current.value)
                  && (top.Some? ==> next.value >= top.value)
                  && (next.value == e.price || next == current || next == top))
  {
  }

  lemma StopStays(e: Entry, p: Policy, bars: seq<Bar>, i: nat, was: Option<real>, top: Option<real>, s: real)
    requires ValidRun(e, bars) && e.index < i < |bars| && TopTrail(e, p, bars, i, top)
    requires if was.Some? then LeastStop(e, p, bars, i, was.value) else !Earned(e, p, bars, i - 1)
    requires s >= e.price && (was.Some? ==> s >= was.value) && (top.Some? ==> s >= top.value)
    requires s == e.price || was == Some(s) || top == Some(s)
    ensures LeastStop(e, p, bars, i + 1, s)
  {
    hide Earned;
    forall k, j, x | e.index < k < i + 1 && Trails(e, p, bars, k, j, x) ensures s >= x {
      if k < i && was.None? {
        EarnedForGood(e, p, bars, k, i - 1);
        assert false;
      }
    }
    if s != e.price && was == Some(s) {
      var k, j :| e.index < k < i && Trails(e, p, bars, k, j, s);
      assert e.index < k < i + 1;
    }
  }

  /** The stop entering a bar is the initial one until a close has earned break-even, and from then on the least level
      at least the entry price and every trail below the highest close. */
  lemma {:induction false} StopIs(e: Entry, p: Policy, bars: seq<Bar>, i: nat)
    requires ValidRun(e, bars) && e.index < i <= |bars|
    ensures var w := StateAt(e, p, bars, i);
            && (w.ratcheted.Some? <==> Earned(e, p, bars, i - 1))
            && (!Earned(e, p, bars, i - 1) ==> Operative(e, w) == e.stop)
            && (Earned(e, p, bars, i - 1) ==> LeastStop(e, p, bars, i, Operative(e, w)))
    decreases i
  {
    hide Ratchet, GainPct, Trails, Earned, IsExtreme, LeastStop, TopTrail, AtrAt, TrailBelow;
    if i == e.index + 1 {
      NothingEarned(e, p, bars);
    } else {
      var k, was, now := i - 1, StateAt(e, p, bars, i - 1), StateAt(e, p, bars, i);
      StopIs(e, p, bars, k);
      ExtremeIs(e, p, bars, i);
      EarnedSplits(e, p, bars, k);
      var top := TrailBelow(now.extreme, AtrAt(p, bars, k), p.trailing);
      RatchetIs(e, now.extreme, AtrAt(p, bars, k), p.trailing, GainPct(e, bars[k].close), p.triggerPct,
        was.ratcheted, top);
      if Earned(e, p, bars, k) {
        TopTrailIs(e, p, bars, k, now.extreme);
        StopStays(e, p, bars, k, was.ratcheted, top, now.ratcheted.value);
      }
    }
  }

  lemma NothingEarned(e: Entry, p: Policy, bars: seq<Bar>)
    requires ValidRun(e, bars)
    ensures !Earned(e, p, bars, e.index)
  {
  }

  function StopAt(e: Entry, p: Policy, bars: seq<Bar>, i: nat): real
    requires ValidRun(e, bars) && e.index < i <= |bars|
  {
    Operative(e, StateAt(e, p, bars, i))
  }

  predicate Stopped(bar: Bar, stop: real) { bar.open <= stop || bar.low <= stop }

  /** The bar's open or high is at the entry price plus the target multiple of the initial risk. */
  predicate OnTarget(e: Entry, bar: Bar, targetR: Option<real>) {
    targetR.Some? && e.price > e.stop
    && (var level := e.price + (e.price - e.stop) * targetR.value; bar.open >= level || bar.high >= level)
  }

  predicate OutOfTime(e: Entry, p: Policy, bar: Bar) { bar.day - e.day >= p.maxHoldDays }

  predicate MustExit(e: Entry, p: Policy, bars: seq<Bar>, i: nat, targetR: Option<real>)
    requires ValidRun(e, bars) && e.index < i < |bars|
  {
    Stopped(bars[i], StopAt(e, p, bars, i)) || OnTarget(e, bars[i], targetR) || OutOfTime(e, p, bars[i])
  }

  /** The stop comes before the target and the target before time. A gap sells at the open, a touch at the level, time
      at the close; and the result is the price's distance from the entry in units of the initial risk. */
  predicate SoldRight(e: Entry, bar: Bar, stop: real, targetR: Option<real>, o: Outcome) {
    && o.day == Some(bar.day) && o.price.Some? && o.r.Some?
    && (if Stopped(bar, stop) then o.reason == Stop && o.price.value == (if bar.open <= stop then bar.open else stop)
        else if OnTarget(e, bar, targetR) then
          var level := e.price + (e.price - e.stop) * targetR.value;
          o.reason == TargetPrice && o.price.value == (if bar.open >= level then bar.open else level)
        else o.reason == TimeStop && o.price.value == bar.close)
    && (e.price <= e.stop ==> o.r.value == 0.0)
    && (e.price > e.stop ==> o.r.value == (o.price.value - e.price) / (e.price - e.stop))
  }

  lemma LevelInR(e: Entry, targetR: real)
    requires Risk(e) > 0.0
    ensures (LevelAt(e, targetR) - e.price) / Risk(e) == targetR
  {
    assert Risk(e) * targetR / Risk(e) == targetR;
  }

  lemma {:induction false} ExitOnBar(e: Entry, p: Policy, bars: seq<Bar>, i: nat, targetR: Option<real>)
    requires ValidRun(e, bars) && e.index < i < |bars|
    ensures var x := ExitOn(e, p, bars[i], StateAt(e, p, bars, i), targetR);
            && (x.Some? <==> MustExit(e, p, bars, i, targetR))
            && (x.Some? ==> SoldRight(e, bars[i], StopAt(e, p, bars, i), targetR, x.value))
  {
    hide StateAt;
    if Risk(e) > 0.0 && targetR.Some? { LevelInR(e, targetR.value); }
  }

  lemma {:induction false} FirstExitFrom(e: Entry, p: Policy, bars: seq<Bar>, i: nat, targetR: Option<real>)
    requires ValidRun(e, bars) && e.index < i <= |bars|
    ensures var x := FirstExit(e, p, bars, i, StateAt(e, p, bars, i), targetR);
            && (x.NoExit? <==> forall j :: i <= j < |bars| ==> !MustExit(e, p, bars, j, targetR))
            && (x.Exit? ==>
                  && i <= x.index < |bars| && MustExit(e, p, bars, x.index, targetR)
                  && (forall j :: i <= j < x.index ==> !MustExit(e, p, bars, j, targetR))
                  && SoldRight(e, bars[x.index], StopAt(e, p, bars, x.index), targetR, x.outcome))
    decreases |bars| - i
  {
    hide ExitOn, Advanced, MustExit, SoldRight;
    if i < |bars| {
      ExitOnBar(e, p, bars, i, targetR);
      if ExitOn(e, p, bars[i], StateAt(e, p, bars, i), targetR).None? { FirstExitFrom(e, p, bars, i + 1, targetR); }
    }
  }

  /** Both simulators exit on the first bar after entry that must exit, at its price and with its result, and are
      censored exactly when no bar must. */
  lemma {:induction false} ExitIsTheFirst(e: Entry, p: Policy, bars: seq<Bar>, targetR: Option<real>)
    requires ValidRun(e, bars)
    ensures var o := OutcomeOf(FirstExit(e, p, bars, e.index + 1, Begin(e), targetR));
            if forall j :: e.index < j < |bars| ==> !MustExit(e, p, bars, j, targetR) then o == CENSORED
            else exists i :: && e.index < i < |bars| && MustExit(e, p, bars, i, targetR)
                             && (forall j :: e.index < j < i ==> !MustExit(e, p, bars, j, targetR))
                             && SoldRight(e, bars[i], StopAt(e, p, bars, i), targetR, o)
  {
    hide MustExit, SoldRight, FirstExit;
    StartState(e, p, bars);
    FirstExitFrom(e, p, bars, e.index + 1, targetR);
  }

  // ---- no lookahead ----

  /** Two histories that agree up to a bar give the same state entering the next. */
  lemma {:induction false} SameState(e: Entry, p: Policy, a: seq<Bar>, b: seq<Bar>, i: nat)
    requires ValidRun(e, a) && ValidRun(e, b) && e.index < i <= |a| && i <= |b| && a[..i] == b[..i]
    ensures StateAt(e, p, a, i) == StateAt(e, p, b, i)
    decreases i
  {
    hide AtrAt, Ratchet, GainPct;
    if i > e.index + 1 {
      assert a[..i - 1] == a[..i][..i - 1] && b[..i - 1] == b[..i][..i - 1];
      SameState(e, p, a, b, i - 1);
      assert a[i - 1] == a[..i][i - 1] && b[i - 1] == b[..i][i - 1];
      SameWindow(p, a, b, i);
    }
  }

  lemma SameWindow(p: Policy, a: seq<Bar>, b: seq<Bar>, i: nat)
    requires 0 < i <= |a| && i <= |b| && a[..i] == b[..i]
    ensures AtrAt(p, a, i - 1) == AtrAt(p, b, i - 1)
  {
    if i - 1 >= ATR_TRAIL_LOOKBACK_DAYS {
      var lo := i - ATR_TRAIL_LOOKBACK_DAYS;
      assert a[lo..i] == a[..i][lo..i] && b[lo..i] == b[..i][lo..i];
    }
  }

  /** The outcome depends only on the bars up to the exit bar: change anything after it and the exit is the same. */
  lemma {:induction false} NoLookahead(e: Entry, p: Policy, a: seq<Bar>, b: seq<Bar>, i: nat, targetR: Option<real>)
    requires ValidRun(e, a) && ValidRun(e, b) && e.index < i <= |a| && i <= |b| && a[..i] == b[..i]
    ensures var x := FirstExit(e, p, a, i, StateAt(e, p, a, i), targetR);
            x.Exit? && x.index < |b| && a[..x.index + 1] == b[..x.index + 1] ==>
              FirstExit(e, p, b, i, StateAt(e, p, b, i), targetR) == x
    decreases |a| - i
  {
    hide ExitOn, Advanced;
    var x := FirstExit(e, p, a, i, StateAt(e, p, a, i), targetR);
    SameState(e, p, a, b, i);
    if x.Exit? && x.index < |b| && a[..x.index + 1] == b[..x.index + 1] {
      assert a[i] == a[..x.index + 1][i] && b[i] == b[..x.index + 1][i];
      if x.index > i {
        assert a[..i + 1] == a[..x.index + 1][..i + 1] && b[..i + 1] == b[..x.index + 1][..i + 1];
        NoLookahead(e, p, a, b, i + 1, targetR);
      }
    }
  }
}
