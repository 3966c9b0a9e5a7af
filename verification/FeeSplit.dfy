/** Largest-remainder fee allocation. An amount is a whole number of its own smallest unit, so the parts are whole
    numbers of that unit too. */
module FeeSplit {
  import opened Common

  /** One fill's share of the weight; ids are distinct and break ties. */
  datatype Weighted = Weighted(id: nat, weight: real)

  function TotalWeight(ws: seq<Weighted>): real {
    if ws == [] then 0.0 else TotalWeight(ws[..|ws| - 1]) + ws[|ws| - 1].weight
  }

  predicate Positive(ws: seq<Weighted>) {
    forall i :: 0 <= i < |ws| ==> ws[i].weight > 0.0
  }

  predicate DistinctIds(ws: seq<Weighted>) {
    forall i, j :: 0 <= i < j < |ws| ==> ws[i].id != ws[j].id
  }

  predicate ValidWeights(ws: seq<Weighted>) {
    ws != [] && Positive(ws) && DistinctIds(ws)
  }

  lemma {:induction false} TotalIsPositive(ws: seq<Weighted>)
    requires Positive(ws)
    ensures TotalWeight(ws) >= 0.0 && (ws != [] ==> TotalWeight(ws) > 0.0)
  {
    if ws != [] { TotalIsPositive(ws[..|ws| - 1]); }
  }

  // ---- exact shares and their floors ----

  function Share(units: nat, weight: real, total: real): real
    requires total != 0.0
  {
    units as real * weight / total
  }

  lemma ShareAdds(units: nat, a: real, b: real, total: real)
    requires total != 0.0
    ensures Share(units, a + b, total) == Share(units, a, total) + Share(units, b, total)
  {
    assert units as real * (a + b) == units as real * a + units as real * b;
  }

  lemma ShareOrder(units: nat, a: real, b: real, total: real)
    requires total > 0.0 && a > b >= 0.0
    ensures Share(units, a, total) >= Share(units, b, total) >= 0.0
    ensures units > 0 ==> Share(units, a, total) > Share(units, b, total)
    ensures units == 0 ==> Share(units, a, total) == 0.0
  {
    var u := units as real;
    assert u * (a - b) >= 0.0 && (units > 0 ==> u * (a - b) > 0.0);
    assert u * a / total - u * b / total == u * (a - b) / total;
    assert u * b >= 0.0;
  }

  lemma ShareWhole(units: nat, total: real)
    requires total != 0.0
    ensures Share(units, total, total) == units as real && Share(units, 0.0, total) == 0.0
  {
  }

  function Exact(units: nat, ws: seq<Weighted>, i: nat): real
    requires ValidWeights(ws) && i < |ws|
  {
    TotalIsPositive(ws);
    Share(units, ws[i].weight, TotalWeight(ws))
  }

  function Floors(units: nat, ws: seq<Weighted>): (floors: seq<int>)
    requires ValidWeights(ws)
    ensures |floors| == |ws|
  {
    seq(|ws|, i requires 0 <= i < |ws| => Exact(units, ws, i).Floor)
  }

  function SumInt(s: seq<int>): int {
    if s == [] then 0 else SumInt(s[..|s| - 1]) + s[|s| - 1]
  }

  // ---- who gets the leftover units ----

  /** A position with its fractional part and id. */
  datatype Slot = Slot(pos: nat, part: real, id: nat)

  /** Larger fractional part first, then smaller id. */
  predicate Outranks(a: Slot, b: Slot) {
    a.part > b.part || (a.part == b.part && a.id < b.id)
  }

  function SlotAt(units: nat, ws: seq<Weighted>, i: nat): Slot
    requires ValidWeights(ws) && i < |ws|
  {
    Slot(i, Exact(units, ws, i) - Exact(units, ws, i).Floor as real, ws[i].id)
  }

  function Placed(order: seq<Slot>, x: Slot): seq<Slot> {
    if order == [] || Outranks(x, order[0]) then [x] + order else [order[0]] + Placed(order[1..], x)
  }

  /** The first `n` positions, best first. */
  function Ranked(units: nat, ws: seq<Weighted>, n: nat): seq<Slot>
    requires ValidWeights(ws) && n <= |ws|
  {
    if n == 0 then [] else Placed(Ranked(units, ws, n - 1), SlotAt(units, ws, n - 1))
  }

  predicate Descending(order: seq<Slot>) {
    forall i, j :: 0 <= i < j < |order| ==> Outranks(order[i], order[j])
  }

  lemma {:induction false} PlacedIs(order: seq<Slot>, x: Slot)
    requires Descending(order) && forall i :: 0 <= i < |order| ==> order[i].id != x.id
    ensures var r := Placed(order, x);
            Descending(r) && |r| == |order| + 1 && forall y :: y in r <==> y in order || y == x
  {
    if order != [] && !Outranks(x, order[0]) {
      PlacedIs(order[1..], x);
      assert order == [order[0]] + order[1..];
      var rest := Placed(order[1..], x);
      forall j | 0 <= j < |rest| ensures Outranks(order[0], rest[j]) {
        assert rest[j] in rest;
        if rest[j] != x {
          assert rest[j] in order[1..];
          var k :| 0 <= k < |order[1..]| && order[1..][k] == rest[j];
          assert order[k + 1] == rest[j];
        }
      }
    }
  }

  lemma {:induction false} RankedIs(units: nat, ws: seq<Weighted>, n: nat)
    requires ValidWeights(ws) && n <= |ws|
    ensures var order := Ranked(units, ws, n);
            && Descending(order) && |order| == n
            && (forall y :: y in order <==> y.pos < n && y == SlotAt(units, ws, y.pos))
  {
    hide Exact, Placed, Outranks;
    if n > 0 {
      RankedIs(units, ws, n - 1);
      var rest := Ranked(units, ws, n - 1);
      forall i | 0 <= i < |rest| ensures rest[i].id != ws[n - 1].id {
        assert rest[i] in rest;
      }
      PlacedIs(rest, SlotAt(units, ws, n - 1));
    }
  }

  /** One more unit for each position in the list. */
  function Bumped(counts: seq<int>, who: seq<Slot>): (r: seq<int>)
    requires forall k :: 0 <= k < |who| ==> who[k].pos < |counts|
    ensures |r| == |counts|
  {
    if who == [] then counts
    else
      var n := |who| - 1;
      var rest := Bumped(counts, who[..n]);
      rest[who[n].pos := rest[who[n].pos] + 1]
  }

  /** How many whole units the floors leave over. */
  function Leftover(units: nat, ws: seq<Weighted>): int
    requires ValidWeights(ws)
  {
    units - SumInt(Floors(units, ws))
  }

  lemma {:induction false} FloorsBound(units: nat, ws: seq<Weighted>, n: nat)
    requires ValidWeights(ws) && n <= |ws| && TotalWeight(ws) > 0.0
    ensures var exact := Share(units, TotalWeight(ws[..n]), TotalWeight(ws));
            var sum := SumInt(Floors(units, ws)[..n]) as real;
            sum <= exact && (if n == 0 then exact == 0.0 else exact < sum + n as real)
  {
    hide Share;
    var total, f := TotalWeight(ws), Floors(units, ws);
    if n == 0 {
      assert ws[..0] == [] && f[..0] == [];
      ShareWhole(units, total);
    } else {
      FloorsBound(units, ws, n - 1);
      assert ws[..n][..n - 1] == ws[..n - 1] && f[..n][..n - 1] == f[..n - 1];
      ShareAdds(units, TotalWeight(ws[..n - 1]), ws[n - 1].weight, total);
      assert f[n - 1] == Exact(units, ws, n - 1).Floor;
    }
  }

  /** The leftover is never negative and always less than one unit per part. */
  lemma LeftoverFits(units: nat, ws: seq<Weighted>)
    requires ValidWeights(ws)
    ensures 0 <= Leftover(units, ws) < |ws|
  {
    hide Share, Floors;
    TotalIsPositive(ws);
    FloorsBound(units, ws, |ws|);
    assert ws[..|ws|] == ws && Floors(units, ws)[..|ws|] == Floors(units, ws);
    ShareWhole(units, TotalWeight(ws));
  }

  /** Those who get one unit more. */
  function Chosen(units: nat, ws: seq<Weighted>): (who: seq<Slot>)
    requires ValidWeights(ws)
    ensures forall k :: 0 <= k < |who| ==> who[k].pos < |ws|
    ensures |who| == Leftover(units, ws)
  {
    LeftoverFits(units, ws);
    RankedIs(units, ws, |ws|);
    var order := Ranked(units, ws, |ws|);
    assert forall k :: 0 <= k < |order| ==> order[k] in order;
    order[..Leftover(units, ws)]
  }

  /** The parts, in units: the floors, with the leftover going one each to the best ranked. */
  function Split(units: nat, ws: seq<Weighted>): (parts: seq<int>)
    requires ValidWeights(ws)
    ensures |parts| == |ws|
  {
    Bumped(Floors(units, ws), Chosen(units, ws))
  }

  method SplitUnits(units: nat, ws: seq<Weighted>) returns (parts: seq<int>)
    requires ValidWeights(ws)
    ensures parts == Split(units, ws)
  {
    hide Exact, Ranked, Floors, Leftover;
    parts := Floors(units, ws);
    var chosen := Chosen(units, ws);
    for n := 0 to |chosen|
      invariant |parts| == |ws|
      invariant parts == Bumped(Floors(units, ws), chosen[..n])
    {
      assert chosen[..n + 1][..n] == chosen[..n];
      parts := parts[chosen[n].pos := parts[chosen[n].pos] + 1];
    }
    assert chosen[..|chosen|] == chosen;
  }

  // ---- what the split guarantees ----

  lemma {:induction false} SumUpdated(s: seq<int>, i: nat, x: int)
    requires i < |s|
    ensures SumInt(s[i := x]) == SumInt(s) - s[i] + x
  {
    var n := |s| - 1;
    if i == n {
      assert s[i := x][..n] == s[..n];
    } else {
      assert s[i := x][..n] == s[..n][i := x];
      SumUpdated(s[..n], i, x);
    }
  }

  lemma {:induction false} BumpedSum(counts: seq<int>, who: seq<Slot>)
    requires forall k :: 0 <= k < |who| ==> who[k].pos < |counts|
    ensures SumInt(Bumped(counts, who)) == SumInt(counts) + |who|
  {
    if who != [] {
      var n := |who| - 1;
      BumpedSum(counts, who[..n]);
      var rest := Bumped(counts, who[..n]);
      SumUpdated(rest, who[n].pos, rest[who[n].pos] + 1);
    }
  }

  predicate Holds(who: seq<Slot>, i: nat) {
    exists k :: 0 <= k < |who| && who[k].pos == i
  }

  lemma {:induction false} BumpedAt(counts: seq<int>, who: seq<Slot>, i: nat)
    requires (forall k :: 0 <= k < |who| ==> who[k].pos < |counts|) && i < |counts|
    requires forall a, b :: 0 <= a < b < |who| ==> who[a].pos != who[b].pos
    ensures Bumped(counts, who)[i] == counts[i] + (if Holds(who, i) then 1 else 0)
  {
    if who != [] {
      var n := |who| - 1;
      BumpedAt(counts, who[..n], i);
      if Holds(who[..n], i) {
        var k :| 0 <= k < n && who[..n][k].pos == i;
        assert who[k].pos == i;
      }
    }
  }

  /** Each part is its floor, or one more for those chosen. */
  lemma PartIs(units: nat, ws: seq<Weighted>, i: nat)
    requires ValidWeights(ws) && i < |ws|
    ensures Split(units, ws)[i] == Exact(units, ws, i).Floor + (if Holds(Chosen(units, ws), i) then 1 else 0)
  {
    hide Exact, Ranked, Leftover;
    LeftoverFits(units, ws);
    RankedIs(units, ws, |ws|);
    var order := Ranked(units, ws, |ws|);
    forall a, b | 0 <= a < b < |order| ensures order[a].pos != order[b].pos {
      assert order[a] in order && order[b] in order && Outranks(order[a], order[b]);
    }
    BumpedAt(Floors(units, ws), Chosen(units, ws), i);
  }

  /** Whoever got an extra unit outranks whoever did not. */
  lemma ChosenAreBest(units: nat, ws: seq<Weighted>, i: nat, j: nat)
    requires ValidWeights(ws) && i < |ws| && j < |ws| && Outranks(SlotAt(units, ws, i), SlotAt(units, ws, j))
    ensures Holds(Chosen(units, ws), j) ==> Holds(Chosen(units, ws), i)
  {
    hide Exact, Ranked, SlotAt, Leftover;
    RankedIs(units, ws, |ws|);
    var order, chosen := Ranked(units, ws, |ws|), Chosen(units, ws);
    LeftoverFits(units, ws);
    if Holds(chosen, j) {
      var b :| 0 <= b < |chosen| && chosen[b].pos == j;
      assert order[b] == chosen[b] && order[b] in order;
      SlotHasPos(units, ws, i);
      assert SlotAt(units, ws, i) in order;
      var a :| 0 <= a < |order| && order[a] == SlotAt(units, ws, i);
      assert !Outranks(order[b], order[a]);
      assert chosen[a] == order[a];
    }
  }

  lemma SlotHasPos(units: nat, ws: seq<Weighted>, i: nat)
    requires ValidWeights(ws) && i < |ws|
    ensures SlotAt(units, ws, i).pos == i
  {
  }

  lemma SplitSum(units: nat, ws: seq<Weighted>)
    requires ValidWeights(ws)
    ensures SumInt(Split(units, ws)) == units
  {
    hide Floors, Ranked;
    BumpedSum(Floors(units, ws), Chosen(units, ws));
  }

  lemma WithinOneUnit(units: nat, ws: seq<Weighted>, i: nat)
    requires ValidWeights(ws) && i < |ws|
    ensures -1.0 < Split(units, ws)[i] as real - Exact(units, ws, i) < 1.0 && Split(units, ws)[i] >= 0
  {
    hide Split, Share, Chosen, Holds;
    PartIs(units, ws, i);
    if Exact(units, ws, i) == Exact(units, ws, i).Floor as real { WholeShareStays(units, ws, i); }
    TotalIsPositive(ws);
    ShareOrder(units, ws[i].weight, 0.0, TotalWeight(ws));
  }

  lemma HeavierNeverLess(units: nat, ws: seq<Weighted>, i: nat, j: nat)
    requires ValidWeights(ws) && i < |ws| && j < |ws| && ws[i].weight > ws[j].weight
    ensures Split(units, ws)[i] >= Split(units, ws)[j]
  {
    hide Split, Share, Chosen, Holds;
    PartIs(units, ws, i);
    PartIs(units, ws, j);
    TotalIsPositive(ws);
    ShareOrder(units, ws[i].weight, ws[j].weight, TotalWeight(ws));
    if units == 0 {
      NothingChosen(ws, i);
      NothingChosen(ws, j);
    } else if Exact(units, ws, i).Floor == Exact(units, ws, j).Floor {
      ChosenAreBest(units, ws, i, j);
    }
  }

  /** With no units there is nothing to choose. */
  lemma NothingChosen(ws: seq<Weighted>, i: nat)
    requires ValidWeights(ws) && i < |ws|
    ensures !Holds(Chosen(0, ws), i)
  {
    hide Chosen;
    TotalIsPositive(ws);
    forall k | 0 <= k < |ws| ensures Floors(0, ws)[k] == 0 {
      ShareOrder(0, ws[k].weight, 0.0, TotalWeight(ws));
    }
    ZeroSum(Floors(0, ws));
  }

  lemma {:induction false} ZeroSum(s: seq<int>)
    requires forall k :: 0 <= k < |s| ==> s[k] == 0
    ensures SumInt(s) == 0
  {
    if s != [] { ZeroSum(s[..|s| - 1]); }
  }

  // ---- who gets one unit more, said of the weights alone ----

  /** A position's proportional share of the units. */
  ghost predicate IsShare(units: nat, ws: seq<Weighted>, i: nat, share: real)
    requires i < |ws|
  {
    share * TotalWeight(ws) == units as real * ws[i].weight
  }

  lemma ExactIsShare(units: nat, ws: seq<Weighted>, i: nat, share: real)
    requires ValidWeights(ws) && i < |ws| && IsShare(units, ws, i, share)
    ensures Exact(units, ws, i) == share
  {
    TotalIsPositive(ws);
    var total := TotalWeight(ws);
    assert Share(units, ws[i].weight, total) * total == units as real * ws[i].weight;
    SameQuotient(Share(units, ws[i].weight, total), share, total);
  }

  lemma SameQuotient(a: real, b: real, total: real)
    requires total > 0.0 && a * total == b * total
    ensures a == b
  {
    assert a == a * total / total && b == b * total / total;
  }

  /** Every part is its share rounded down or one unit more, and of two positions the one with the larger remainder,
      or with the smaller id where the remainders are equal, never goes without while the other gets more. */
  lemma LeftoverByRemainder(units: nat, ws: seq<Weighted>, i: nat, j: nat, a: real, b: real)
    requires ValidWeights(ws) && i < |ws| && j < |ws| && i != j
    requires IsShare(units, ws, i, a) && IsShare(units, ws, j, b)
    ensures var parts := Split(units, ws);
            && (parts[i] == a.Floor || parts[i] == a.Floor + 1)
            && (parts[i] == a.Floor + 1 && parts[j] == b.Floor ==>
                  a - a.Floor as real > b - b.Floor as real
                  || (a - a.Floor as real == b - b.Floor as real && ws[i].id < ws[j].id))
  {
    hide Split, Chosen, Holds, IsShare, Exact;
    ExactIsShare(units, ws, i, a);
    ExactIsShare(units, ws, j, b);
    PartIs(units, ws, i);
    PartIs(units, ws, j);
    assert ws[i].id != ws[j].id;
    if Holds(Chosen(units, ws), i) && !Holds(Chosen(units, ws), j) && Outranks(SlotAt(units, ws, j),
      SlotAt(units, ws, i)) {
      ChosenAreBest(units, ws, j, i);
    }
  }

  /** How much more than their shares the first `n` positions get together. */
  function Excess(units: nat, ws: seq<Weighted>, n: nat): real
    requires ValidWeights(ws) && n <= |ws|
  {
    if n == 0 then 0.0
    else Excess(units, ws, n - 1) + (Split(units, ws)[n - 1] as real - Exact(units, ws, n - 1))
  }

  lemma {:induction false} ExcessIs(units: nat, ws: seq<Weighted>, n: nat)
    requires ValidWeights(ws) && n <= |ws| && TotalWeight(ws) > 0.0
    ensures Excess(units, ws, n)
         == SumInt(Split(units, ws)[..n]) as real - Share(units, TotalWeight(ws[..n]), TotalWeight(ws))
  {
    hide Split, Share;
    var parts := Split(units, ws);
    if n == 0 {
      assert parts[..0] == [] && ws[..0] == [];
      ShareWhole(units, TotalWeight(ws));
    } else {
      ExcessIs(units, ws, n - 1);
      assert parts[..n][..n - 1] == parts[..n - 1] && ws[..n][..n - 1] == ws[..n - 1];
      ShareAdds(units, TotalWeight(ws[..n - 1]), ws[n - 1].weight, TotalWeight(ws));
    }
  }

  lemma {:induction false} ExcessGrows(units: nat, ws: seq<Weighted>, n: nat, i: nat)
    requires ValidWeights(ws) && n <= |ws|
    requires forall k :: 0 <= k < n ==> Split(units, ws)[k] as real >= Exact(units, ws, k)
    ensures Excess(units, ws, n) >= 0.0
    ensures i < n && Split(units, ws)[i] as real > Exact(units, ws, i) ==> Excess(units, ws, n) > 0.0
  {
    hide Split, Exact;
    if n > 0 { ExcessGrows(units, ws, n - 1, i); }
  }

  /** A whole share is never rounded up: if it were, everyone with a remainder would have been before it, and the parts
      would sum to more than the amount. */
  lemma WholeShareStays(units: nat, ws: seq<Weighted>, i: nat)
    requires ValidWeights(ws) && i < |ws| && Exact(units, ws, i) == Exact(units, ws, i).Floor as real
    ensures Split(units, ws)[i] as real == Exact(units, ws, i)
  {
    hide Split, Exact, Chosen, Holds, Share;
    TotalIsPositive(ws);
    PartIs(units, ws, i);
    assert ws[..|ws|] == ws && Split(units, ws)[..|ws|] == Split(units, ws);
    if Holds(Chosen(units, ws), i) {
      forall k | 0 <= k < |ws| ensures Split(units, ws)[k] as real >= Exact(units, ws, k) {
        PartIs(units, ws, k);
        if Exact(units, ws, k) > Exact(units, ws, k).Floor as real { ChosenAreBest(units, ws, k, i); }
      }
      ExcessGrows(units, ws, |ws|, i);
      ExcessIs(units, ws, |ws|);
      SplitSum(units, ws);
      ShareWhole(units, TotalWeight(ws));
    }
  }

  /** The parts sum to the amount exactly; each is less than one unit from its proportional share; and a strictly
      heavier fill never gets less. */
  lemma SplitIsFair(units: nat, ws: seq<Weighted>)
    requires ValidWeights(ws)
    ensures SumInt(Split(units, ws)) == units
    ensures forall i :: 0 <= i < |ws| ==> -1.0 < Split(units, ws)[i] as real - Exact(units, ws, i) < 1.0
    ensures forall i :: 0 <= i < |ws| ==> Split(units, ws)[i] >= 0
    ensures forall i, j :: 0 <= i < |ws| && 0 <= j < |ws| && ws[i].weight > ws[j].weight ==>
            Split(units, ws)[i] >= Split(units, ws)[j]
  {
    hide Split, Exact;
    SplitSum(units, ws);
    forall i | 0 <= i < |ws|
      ensures -1.0 < Split(units, ws)[i] as real - Exact(units, ws, i) < 1.0 && Split(units, ws)[i] >= 0
    {
      WithinOneUnit(units, ws, i);
    }
    forall i, j | 0 <= i < |ws| && 0 <= j < |ws| && ws[i].weight > ws[j].weight
      ensures Split(units, ws)[i] >= Split(units, ws)[j]
    {
      HeavierNeverLess(units, ws, i, j);
    }
  }

  // ---- amounts, and the closing fees of a set of fills ----

  /** A signed amount as whole units of `unit`, its own smallest unit (at most a cent). */
  datatype Amount = Amount(negative: bool, units: nat, unit: real)

  function Sign(a: Amount): real { if a.negative then -1.0 else 1.0 }

  /** What one unit is worth. */
  function ScaleOf(a: Amount): real { Sign(a) * a.unit }

  function Value(a: Amount): real { Sign(a) * a.units as real * a.unit }

  /** A stored fill and its own fee. */
  datatype Fill = Fill(id: nat, order: nat, qty: real, fee: real, brokerId: Option<nat>)

  /** A broker cash fee that names a fill, an order, or neither. */
  datatype Receipt = Receipt(fill: Option<nat>, order: Option<nat>, fee: Amount)

  function GroupOf(fills: seq<Fill>, order: nat): seq<Weighted> {
    if fills == [] then []
    else
      var n := |fills| - 1;
      GroupOf(fills[..n], order) + (if fills[n].order == order then [Weighted(fills[n].id, fills[n].qty)] else [])
  }

  /** The order ids, in the order their first fills come. */
  function Orders(fills: seq<Fill>): seq<nat> {
    if fills == [] then []
    else
      var n := |fills| - 1;
      var rest := Orders(fills[..n]);
      if fills[n].order in rest then rest else rest + [fills[n].order]
  }

  function FillsOn(fills: seq<Fill>, order: nat): (r: seq<Fill>)
    ensures forall f :: f in r ==> f in fills
  {
    if fills == [] then []
    else
      var n := |fills| - 1;
      FillsOn(fills[..n], order) + (if fills[n].order == order then [fills[n]] else [])
  }

  /** The fills group by group. */
  function Grouped(fills: seq<Fill>, orders: seq<nat>): (r: seq<Fill>)
    ensures forall f :: f in r ==> f in fills
  {
    if orders == [] then [] else Grouped(fills, orders[..|orders| - 1]) + FillsOn(fills, orders[|orders| - 1])
  }

  function LastNamed(fills: seq<Fill>, brokerId: Option<nat>): (id: Option<nat>)
    ensures id.Some? ==> exists f :: f in fills && f.id == id.value && f.brokerId == brokerId
  {
    if fills == [] || brokerId.None? then None
    else if fills[|fills| - 1].brokerId == brokerId then Some(fills[|fills| - 1].id)
    else LastNamed(fills[..|fills| - 1], brokerId)
  }

  /** The fill a receipt names by its broker id; of several fills with that broker id the last one wins, group by
      group. */
  function Named(fills: seq<Fill>, brokerId: Option<nat>): Option<nat> {
    LastNamed(Grouped(fills, Orders(fills)), brokerId)
  }

  predicate ValidFills(fills: seq<Fill>) {
    && (forall i :: 0 <= i < |fills| ==> fills[i].qty > 0.0)
    && (forall i, j :: 0 <= i < j < |fills| ==> fills[i].id != fills[j].id)
  }

  function Ids(fills: seq<Fill>): seq<nat> {
    seq(|fills|, i requires 0 <= i < |fills| => fills[i].id)
  }

  /** The total of an allocation over the fills it covers. */
  function TotalOf(allocation: map<nat, real>, ids: seq<nat>): real
    requires forall i :: 0 <= i < |ids| ==> ids[i] in allocation
  {
    if ids == [] then 0.0 else TotalOf(allocation, ids[..|ids| - 1]) + allocation[ids[|ids| - 1]]
  }

  function OwnFees(fills: seq<Fill>): real {
    if fills == [] then 0.0 else OwnFees(fills[..|fills| - 1]) + fills[|fills| - 1].fee
  }

  /** A receipt counts when it names a known fill or, failing that, a known order. */
  predicate Matched(fills: seq<Fill>, r: Receipt) {
    Named(fills, r.fill).Some? || (r.order.Some? && GroupOf(fills, r.order.value) != [])
  }

  function MatchedFees(fills: seq<Fill>, receipts: seq<Receipt>): real {
    if receipts == [] then 0.0
    else
      var n := |receipts| - 1;
      MatchedFees(fills, receipts[..n]) + (if Matched(fills, receipts[n]) then Value(receipts[n].fee) else 0.0)
  }

  predicate Covers(allocation: map<nat, real>, ids: seq<nat>) {
    forall i :: 0 <= i < |ids| ==> ids[i] in allocation
  }

  predicate NoRepeats(ids: seq<nat>) {
    forall i, j :: 0 <= i < j < |ids| ==> ids[i] != ids[j]
  }

  lemma {:induction false} TotalUpdated(allocation: map<nat, real>, ids: seq<nat>, id: nat, delta: real)
    requires Covers(allocation, ids) && NoRepeats(ids) && id in allocation
    ensures Covers(allocation[id := allocation[id] + delta], ids)
    ensures TotalOf(allocation[id := allocation[id] + delta], ids)
            == TotalOf(allocation, ids) + (if id in ids then delta else 0.0)
  {
    if ids != [] {
      var n := |ids| - 1;
      TotalUpdated(allocation, ids[..n], id, delta);
      assert ids == ids[..n] + [ids[n]];
      assert ids[n] !in ids[..n];
    }
  }

  lemma NamedIsKnown(fills: seq<Fill>, brokerId: Option<nat>)
    ensures Named(fills, brokerId).Some? ==> Named(fills, brokerId).value in Ids(fills)
  {
    var id := Named(fills, brokerId);
    if id.Some? {
      var f :| f in Grouped(fills, Orders(fills)) && f.id == id.value;
      var i :| 0 <= i < |fills| && fills[i] == f;
      assert Ids(fills)[i] == id.value;
    }
  }

  lemma {:induction false} GroupIs(fills: seq<Fill>, order: nat)
    requires ValidFills(fills)
    ensures var g := GroupOf(fills, order);
            && Positive(g) && DistinctIds(g)
            && forall w :: w in g ==> w.id in Ids(fills)
  {
    if fills != [] {
      var n := |fills| - 1;
      GroupIs(fills[..n], order);
      var rest := GroupOf(fills[..n], order);
      assert Ids(fills) == Ids(fills[..n]) + [fills[n].id];
      forall i | 0 <= i < |rest| ensures rest[i].id != fills[n].id {
        assert rest[i] in rest && rest[i].id in Ids(fills[..n]);
        var k :| 0 <= k < |Ids(fills[..n])| && Ids(fills[..n])[k] == rest[i].id;
        assert fills[..n][k] == fills[k];
      }
    }
  }

  lemma IdsNoRepeats(fills: seq<Fill>)
    requires ValidFills(fills)
    ensures NoRepeats(Ids(fills))
  {
  }

  function Scaled(scale: real, n: int): real { scale * n as real }

  lemma ScaledAdds(scale: real, a: int, b: int)
    ensures Scaled(scale, a + b) == Scaled(scale, a) + Scaled(scale, b)
  {
  }

  lemma ScaledValue(a: Amount)
    ensures Scaled(ScaleOf(a), a.units) == Value(a)
  {
  }

  /** Adds the first `n` parts of a split to their fills. */
  function AddParts(allocation: map<nat, real>, group: seq<Weighted>, parts: seq<int>, scale: real,
                    n: nat): map<nat, real>
    requires n <= |group| == |parts| && forall i :: 0 <= i < |group| ==> group[i].id in allocation
    ensures AddParts(allocation, group, parts, scale, n).Keys == allocation.Keys
  {
    if n == 0 then allocation
    else
      var rest := AddParts(allocation, group, parts, scale, n - 1);
      rest[group[n - 1].id := rest[group[n - 1].id] + Scaled(scale, parts[n - 1])]
  }

  lemma {:induction false} PartsAddUp(allocation: map<nat, real>, group: seq<Weighted>, parts: seq<int>, scale: real,
                                      n: nat, ids: seq<nat>)
    requires n <= |group| == |parts| && Covers(allocation, ids) && NoRepeats(ids)
    requires forall i :: 0 <= i < |group| ==> group[i].id in allocation && group[i].id in ids
    ensures Covers(AddParts(allocation, group, parts, scale, n), ids)
    ensures TotalOf(AddParts(allocation, group, parts, scale, n), ids)
         == TotalOf(allocation, ids) + Scaled(scale, SumInt(parts[..n]))
  {
    if n == 0 {
      assert parts[..0] == [];
    } else {
      hide Scaled;
      PartsAddUp(allocation, group, parts, scale, n - 1, ids);
      var rest := AddParts(allocation, group, parts, scale, n - 1);
      TotalUpdated(rest, ids, group[n - 1].id, Scaled(scale, parts[n - 1]));
      assert parts[..n][..n - 1] == parts[..n - 1];
      ScaledAdds(scale, SumInt(parts[..n - 1]), parts[n - 1]);
    }
  }

  /** What the first `n` parts of a split give to one fill. */
  function PartFor(group: seq<Weighted>, parts: seq<int>, scale: real, id: nat, n: nat): real
    requires n <= |group| == |parts|
  {
    if n == 0 then 0.0
    else PartFor(group, parts, scale, id, n - 1) + (if group[n - 1].id == id then Scaled(scale, parts[n - 1]) else 0.0)
  }

  lemma {:induction false} AddPartsAt(allocation: map<nat, real>, group: seq<Weighted>, parts: seq<int>, scale: real,
                                      n: nat, id: nat)
    requires n <= |group| == |parts| && id in allocation && forall i :: 0 <= i < |group| ==> group[i].id in allocation
    ensures AddParts(allocation, group, parts, scale, n)[id] == allocation[id] + PartFor(group, parts, scale, id, n)
  {
    hide Scaled;
    if n > 0 { AddPartsAt(allocation, group, parts, scale, n - 1, id); }
  }

  /** A fill of the order gets its own part of the split and no other. */
  lemma {:induction false} PartIsItsOwn(group: seq<Weighted>, parts: seq<int>, scale: real, k: nat, n: nat)
    requires n <= |group| == |parts| && k < |group| && DistinctIds(group)
    ensures PartFor(group, parts, scale, group[k].id, n) == if k < n then Scaled(scale, parts[k]) else 0.0
  {
    hide Scaled;
    if n > 0 { PartIsItsOwn(group, parts, scale, k, n - 1); }
  }

  /** What one receipt gives to one fill: all of it to the fill it names, otherwise that fill's part of its order's
      split. */
  function ReceiptTo(fills: seq<Fill>, r: Receipt, id: nat): real
    requires ValidFills(fills)
  {
    var named := Named(fills, r.fill);
    if named.Some? then (if named.value == id then Value(r.fee) else 0.0)
    else if r.order.Some? && GroupOf(fills, r.order.value) != [] then
      var group := GroupOf(fills, r.order.value);
      GroupIs(fills, r.order.value);
      PartFor(group, Split(r.fee.units, group), ScaleOf(r.fee), id, |group|)
    else 0.0
  }

  function ReceiptsTo(fills: seq<Fill>, receipts: seq<Receipt>, id: nat): real
    requires ValidFills(fills)
  {
    if receipts == [] then 0.0
    else ReceiptsTo(fills, receipts[..|receipts| - 1], id) + ReceiptTo(fills, receipts[|receipts| - 1], id)
  }

  // ---- what one receipt gives, said of the fills alone ----

  /** A fee of so many units, negative where the amount is. */
  function Signed(a: Amount, count: int): real {
    if a.negative then -(count as real * a.unit) else count as real * a.unit
  }

  lemma ScaledIsSigned(a: Amount, count: int)
    ensures Scaled(ScaleOf(a), count) == Signed(a, count)
    ensures Value(a) == Signed(a, a.units)
  {
  }

  lemma {:induction false} GroupedHolds(fills: seq<Fill>, orders: seq<nat>, f: Fill)
    ensures f in Grouped(fills, orders) <==> f in fills && f.order in orders
  {
    if orders != [] {
      var n := |orders| - 1;
      GroupedHolds(fills, orders[..n], f);
      FillsOnHolds(fills, orders[n], f);
      assert orders == orders[..n] + [orders[n]];
    }
  }

  lemma {:induction false} FillsOnHolds(fills: seq<Fill>, order: nat, f: Fill)
    ensures f in FillsOn(fills, order) <==> f in fills && f.order == order
  {
    if fills != [] {
      FillsOnHolds(fills[..|fills| - 1], order, f);
      assert fills == fills[..|fills| - 1] + [fills[|fills| - 1]];
    }
  }

  lemma {:induction false} OrdersHold(fills: seq<Fill>, order: nat)
    ensures order in Orders(fills) <==> exists f :: f in fills && f.order == order
  {
    if fills != [] {
      OrdersHold(fills[..|fills| - 1], order);
      assert fills == fills[..|fills| - 1] + [fills[|fills| - 1]];
    }
  }

  lemma {:induction false} SomeLastNamed(fills: seq<Fill>, brokerId: Option<nat>)
    ensures LastNamed(fills, brokerId).Some? <==> brokerId.Some? && exists f :: f in fills && f.brokerId == brokerId
  {
    if fills != [] {
      SomeLastNamed(fills[..|fills| - 1], brokerId);
      assert fills == fills[..|fills| - 1] + [fills[|fills| - 1]];
    }
  }

  /** A receipt names a fill exactly when some fill has its broker id, and then one that has it. */
  lemma NamedIs(fills: seq<Fill>, brokerId: Option<nat>)
    ensures Named(fills, brokerId).Some? <==> brokerId.Some? && exists f :: f in fills && f.brokerId == brokerId
    ensures Named(fills, brokerId).Some? ==>
              exists f :: f in fills && f.brokerId == brokerId && f.id == Named(fills, brokerId).value
  {
    SomeLastNamed(Grouped(fills, Orders(fills)), brokerId);
    forall f | f in fills ensures f in Grouped(fills, Orders(fills)) {
      OrdersHold(fills, f.order);
      GroupedHolds(fills, Orders(fills), f);
    }
  }

  /** The group of an order is its fills, each by its quantity. */
  lemma {:induction false} GroupHolds(fills: seq<Fill>, order: nat, w: Weighted)
    ensures w in GroupOf(fills, order) <==> exists f :: f in fills && f.order == order && w == Weighted(f.id, f.qty)
  {
    if fills != [] {
      GroupHolds(fills[..|fills| - 1], order, w);
      assert fills == fills[..|fills| - 1] + [fills[|fills| - 1]];
    }
  }

  lemma {:induction false} NotInTheGroup(group: seq<Weighted>, parts: seq<int>, scale: real, id: nat, n: nat)
    requires n <= |group| == |parts| && forall w :: w in group ==> w.id != id
    ensures PartFor(group, parts, scale, id, n) == 0.0
  {
    if n > 0 { NotInTheGroup(group, parts, scale, id, n - 1); }
  }

  /** A receipt that names a fill goes to a fill with that broker id, all of it. One that names only a known order gives
      each fill of the order its part of the split by quantity, in units of the receipt's own sign, and no other fill
      anything; any other receipt gives nothing. */
  lemma {:induction false} ReceiptGives(fills: seq<Fill>, r: Receipt, i: nat)
    requires ValidFills(fills) && i < |fills|
    ensures var got := ReceiptTo(fills, r, fills[i].id);
            var named := r.fill.Some? && exists f :: f in fills && f.brokerId == r.fill;
            && (named ==> got == 0.0 || (fills[i].brokerId == r.fill && got == Signed(r.fee, r.fee.units)))
            && (named && (forall j :: 0 <= j < |fills| && j != i ==> fills[j].brokerId != r.fill) ==>
                  got == Signed(r.fee, r.fee.units))
            && (!named && r.order != Some(fills[i].order) ==> got == 0.0)
            && (!named && r.order == Some(fills[i].order) ==>
                  var group := GroupOf(fills, fills[i].order);
                  && ValidWeights(group)
                  && exists k :: 0 <= k < |group| && group[k] == Weighted(fills[i].id, fills[i].qty)
                                 && got == Signed(r.fee, Split(r.fee.units, group)[k]))
  {
    hide Split, GroupOf, PartFor, Named, Value, ScaleOf;
    NamedIs(fills, r.fill);
    ScaledIsSigned(r.fee, r.fee.units);
    if Named(fills, r.fill).None? && r.order.Some? {
      var group := GroupOf(fills, r.order.value);
      GroupIs(fills, r.order.value);
      var w := Weighted(fills[i].id, fills[i].qty);
      if r.order == Some(fills[i].order) {
        GroupHolds(fills, fills[i].order, w);
        assert w in group;
        var k :| 0 <= k < |group| && group[k] == w;
        PartIsItsOwn(group, Split(r.fee.units, group), ScaleOf(r.fee), k, |group|);
        ScaledIsSigned(r.fee, Split(r.fee.units, group)[k]);
      } else if group != [] {
        forall x | x in group ensures x.id != fills[i].id {
          GroupHolds(fills, r.order.value, x);
          var f :| f in fills && f.order == r.order.value && x == Weighted(f.id, f.qty);
          var j :| 0 <= j < |fills| && fills[j] == f;
          assert j != i;
        }
        NotInTheGroup(group, Split(r.fee.units, group), ScaleOf(r.fee), fills[i].id, |group|);
      }
    }
  }

  /** Every fill has its own fee and its share of each of the receipts. */
  ghost predicate Settled(fills: seq<Fill>, receipts: seq<Receipt>, allocation: map<nat, real>)
    requires ValidFills(fills)
  {
    forall i :: 0 <= i < |fills| ==>
      fills[i].id in allocation && allocation[fills[i].id] == fills[i].fee + ReceiptsTo(fills, receipts, fills[i].id)
  }

  /** Each fill's fees: its own, plus every matched receipt exactly once: to the fill it names, or split across its
      order's fills by quantity. The allocations total the own fees plus every matched receipt. */
  method ClosingFeeAllocation(fills: seq<Fill>, receipts: seq<Receipt>) returns (allocation: map<nat, real>)
    requires ValidFills(fills)
    ensures allocation.Keys == (set id | id in Ids(fills)) && Covers(allocation, Ids(fills))
    ensures TotalOf(allocation, Ids(fills)) == OwnFees(fills) + MatchedFees(fills, receipts)
    ensures Settled(fills, receipts, allocation)
  {
    hide Split, ValidWeights, NoRepeats, ReceiptTo, AddParts, Settled, Gained, ValidFills, ScaleOf, Value, TotalOf,
      Named, GroupOf;
    assert receipts[..0] == [];
    allocation := OwnAllocation(fills);
    ghost var ids := Ids(fills);
    IdsNoRepeats(fills);
    for n := 0 to |receipts|
      invariant allocation.Keys == (set id | id in ids) && Covers(allocation, ids)
      invariant TotalOf(allocation, ids) == OwnFees(fills) + MatchedFees(fills, receipts[..n])
      invariant Settled(fills, receipts[..n], allocation)
    {
      assert receipts[..n + 1][..n] == receipts[..n];
      var r := receipts[n];
      ghost var was := allocation;
      NamedIsKnown(fills, r.fill);
      var named := Named(fills, r.fill);
      if named.Some? {
        TotalUpdated(allocation, ids, named.value, Value(r.fee));
        allocation := allocation[named.value := allocation[named.value] + Value(r.fee)];
        NamedGains(fills, r, was);
      } else if r.order.Some? && GroupOf(fills, r.order.value) != [] {
        allocation := SplitReceipt(fills, allocation, r.order.value, r.fee);
        OrderGains(fills, r, was);
      } else {
        NobodyGains(fills, r, was);
      }
      OneMoreReceipt(fills, receipts, n, was, allocation);
    }
    assert receipts[..|receipts|] == receipts;
  }

  /** Every fill gains its share of one receipt. */
  ghost predicate Gained(fills: seq<Fill>, r: Receipt, was: map<nat, real>, now: map<nat, real>)
    requires ValidFills(fills)
  {
    forall i :: 0 <= i < |fills| ==>
      fills[i].id in was && fills[i].id in now
        && now[fills[i].id] == was[fills[i].id] + ReceiptTo(fills, r, fills[i].id)
  }

  lemma OneMoreReceipt(fills: seq<Fill>, receipts: seq<Receipt>, n: nat, was: map<nat, real>, now: map<nat, real>)
    requires ValidFills(fills) && n < |receipts| && Settled(fills, receipts[..n], was)
             && Gained(fills, receipts[n], was, now)
    ensures Settled(fills, receipts[..n + 1], now)
  {
    hide ReceiptTo, ValidFills;
    assert receipts[..n + 1][..n] == receipts[..n];
  }

  lemma {:induction false} NamedGains(fills: seq<Fill>, r: Receipt, was: map<nat, real>)
    requires ValidFills(fills) && Covers(was, Ids(fills))
    requires Named(fills, r.fill).Some? && Named(fills, r.fill).value in was
    ensures var id := Named(fills, r.fill).value; Gained(fills, r, was, was[id := was[id] + Value(r.fee)])
  {
    hide Named, Value, ValidFills;
    assert forall i :: 0 <= i < |fills| ==> Ids(fills)[i] == fills[i].id;
  }

  lemma {:induction false} NobodyGains(fills: seq<Fill>, r: Receipt, was: map<nat, real>)
    requires ValidFills(fills) && Covers(was, Ids(fills))
    requires Named(fills, r.fill).None? && (r.order.Some? ==> GroupOf(fills, r.order.value) == [])
    ensures Gained(fills, r, was, was)
  {
    hide Named, GroupOf, ValidFills;
    assert forall i :: 0 <= i < |fills| ==> Ids(fills)[i] == fills[i].id;
  }

  lemma {:induction false} OrderGains(fills: seq<Fill>, r: Receipt, was: map<nat, real>)
    requires ValidFills(fills) && Covers(was, Ids(fills))
    requires Named(fills, r.fill).None? && r.order.Some? && GroupOf(fills, r.order.value) != []
    requires forall i :: 0 <= i < |GroupOf(fills, r.order.value)| ==> GroupOf(fills, r.order.value)[i].id in was
    ensures var group := GroupOf(fills, r.order.value);
            && ValidWeights(group)
            && Gained(fills, r, was, AddParts(was, group, Split(r.fee.units, group), ScaleOf(r.fee), |group|))
  {
    hide Named, Split, GroupOf, AddParts, PartFor, ScaleOf;
    var group := GroupOf(fills, r.order.value);
    GroupIs(fills, r.order.value);
    var parts, scale := Split(r.fee.units, group), ScaleOf(r.fee);
    forall i | 0 <= i < |fills|
      ensures fills[i].id in was
      ensures AddParts(was, group, parts, scale, |group|)[fills[i].id]
              == was[fills[i].id] + ReceiptTo(fills, r, fills[i].id)
    {
      assert Ids(fills)[i] == fills[i].id;
      AddPartsAt(was, group, parts, scale, |group|, fills[i].id);
    }
  }

  /** The first `n` fills have their own fees. */
  ghost predicate HoldsOwn(fills: seq<Fill>, n: nat, allocation: map<nat, real>)
    requires n <= |fills|
  {
    forall i :: 0 <= i < n ==> fills[i].id in allocation && allocation[fills[i].id] == fills[i].fee
  }

  lemma OwnNone(fills: seq<Fill>, allocation: map<nat, real>)
    ensures HoldsOwn(fills, 0, allocation)
  {
  }

  lemma OwnNext(fills: seq<Fill>, n: nat, allocation: map<nat, real>)
    requires ValidFills(fills) && n < |fills| && HoldsOwn(fills, n, allocation)
    ensures HoldsOwn(fills, n + 1, allocation[fills[n].id := fills[n].fee])
  {
  }

  lemma OwnIsSettled(fills: seq<Fill>, allocation: map<nat, real>)
    requires ValidFills(fills) && HoldsOwn(fills, |fills|, allocation)
    ensures Settled(fills, [], allocation)
  {
  }

  method OwnAllocation(fills: seq<Fill>) returns (allocation: map<nat, real>)
    requires ValidFills(fills)
    ensures allocation.Keys == (set id | id in Ids(fills)) && Covers(allocation, Ids(fills))
    ensures TotalOf(allocation, Ids(fills)) == OwnFees(fills)
    ensures Settled(fills, [], allocation)
  {
    hide ValidFills, NoRepeats, HoldsOwn, Settled;
    IdsNoRepeats(fills);
    allocation := map[];
    OwnNone(fills, allocation);
    for n := 0 to |fills|
      invariant allocation.Keys == (set id | id in Ids(fills[..n])) && Covers(allocation, Ids(fills[..n]))
      invariant TotalOf(allocation, Ids(fills[..n])) == OwnFees(fills[..n])
      invariant HoldsOwn(fills, n, allocation)
    {
      var ids := Ids(fills[..n]);
      NextId(fills, n);
      assert fills[..n + 1][..n] == fills[..n];
      NewId(allocation, ids, fills[n].id, fills[n].fee);
      OwnNext(fills, n, allocation);
      allocation := allocation[fills[n].id := fills[n].fee];
    }
    assert fills[..|fills|] == fills;
    OwnIsSettled(fills, allocation);
  }

  lemma NextId(fills: seq<Fill>, n: nat)
    requires n < |fills| && NoRepeats(Ids(fills))
    ensures Ids(fills[..n + 1]) == Ids(fills[..n]) + [fills[n].id]
    ensures forall i :: 0 <= i < n ==> Ids(fills[..n])[i] != fills[n].id
  {
    forall i | 0 <= i < n ensures Ids(fills[..n])[i] != fills[n].id {
      assert Ids(fills)[i] != Ids(fills)[n];
    }
  }

  lemma {:induction false} SameTotal(a: map<nat, real>, b: map<nat, real>, ids: seq<nat>)
    requires Covers(a, ids) && Covers(b, ids) && forall i :: 0 <= i < |ids| ==> a[ids[i]] == b[ids[i]]
    ensures TotalOf(a, ids) == TotalOf(b, ids)
  {
    if ids != [] { SameTotal(a, b, ids[..|ids| - 1]); }
  }

  lemma NewId(allocation: map<nat, real>, ids: seq<nat>, id: nat, fee: real)
    requires Covers(allocation, ids) && forall i :: 0 <= i < |ids| ==> ids[i] != id
    ensures Covers(allocation[id := fee], ids + [id])
    ensures TotalOf(allocation[id := fee], ids + [id]) == TotalOf(allocation, ids) + fee
  {
    SameTotal(allocation, allocation[id := fee], ids);
    assert (ids + [id])[..|ids|] == ids;
  }

  /** The fills of an order hold an allocation each, and its split adds up to the fee. */
  lemma {:induction false} SplitAddsUp(fills: seq<Fill>, allocation: map<nat, real>, order: nat, fee: Amount)
    requires ValidFills(fills) && GroupOf(fills, order) != []
    requires allocation.Keys == (set id | id in Ids(fills)) && Covers(allocation, Ids(fills))
    ensures var group := GroupOf(fills, order);
            && ValidWeights(group) && |Split(fee.units, group)| == |group|
            && (forall i :: 0 <= i < |group| ==> group[i].id in allocation)
            && var r := AddParts(allocation, group, Split(fee.units, group), ScaleOf(fee), |group|);
               Covers(r, Ids(fills)) && TotalOf(r, Ids(fills)) == TotalOf(allocation, Ids(fills)) + Value(fee)
  {
    hide Split, Scaled, GroupOf, ScaleOf, Value, TotalOf, SumInt, NoRepeats, ValidFills, TotalWeight, AddParts, Ids;
    ScaledValue(fee);
    var group := GroupOf(fills, order);
    GroupIs(fills, order);
    IdsNoRepeats(fills);
    forall i | 0 <= i < |group| ensures group[i].id in allocation && group[i].id in Ids(fills) {
      assert group[i] in group;
    }
    var parts := Split(fee.units, group);
    PartsAddUp(allocation, group, parts, ScaleOf(fee), |group|, Ids(fills));
    SplitSum(fee.units, group);
    assert parts[..|group|] == parts;
  }

  method SplitReceipt(fills: seq<Fill>, allocation: map<nat, real>, order: nat, fee: Amount) returns (r: map<nat, real>)
    requires ValidFills(fills) && GroupOf(fills, order) != []
    requires allocation.Keys == (set id | id in Ids(fills)) && Covers(allocation, Ids(fills))
    ensures r.Keys == allocation.Keys && Covers(r, Ids(fills))
    ensures var group := GroupOf(fills, order);
            && ValidWeights(group) && (forall i :: 0 <= i < |group| ==> group[i].id in allocation)
            && r == AddParts(allocation, group, Split(fee.units, group), ScaleOf(fee), |group|)
    ensures TotalOf(r, Ids(fills)) == TotalOf(allocation, Ids(fills)) + Value(fee)
  {
    hide Split, Scaled, GroupOf, ScaleOf, Value, TotalOf, ValidFills, TotalWeight, ValidWeights, Ids, Covers;
    SplitAddsUp(fills, allocation, order, fee);
    var group := GroupOf(fills, order);
    var parts := SplitUnits(fee.units, group);
    var scale := ScaleOf(fee);
    r := allocation;
    for n := 0 to |group|
      invariant r == AddParts(allocation, group, parts, scale, n)
    {
      r := r[group[n].id := r[group[n].id] + Scaled(scale, parts[n])];
    }
  }
}
