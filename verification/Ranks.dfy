/** Tie-averaged ranks against their counting definition, and the rank correlation built on them. Values are exact
    reals. */
module Ranks {
  import opened Common

  // ---- the counting definition ----

  function CountLess(vs: seq<real>, v: real): nat {
    if vs == [] then 0 else CountLess(vs[..|vs| - 1], v) + (if vs[|vs| - 1] < v then 1 else 0)
  }

  function CountEqual(vs: seq<real>, v: real): nat {
    if vs == [] then 0 else CountEqual(vs[..|vs| - 1], v) + (if vs[|vs| - 1] == v then 1 else 0)
  }

  /** How many are smaller, plus the middle of those that are equal. */
  function RankOf(vs: seq<real>, v: real): real {
    CountLess(vs, v) as real + (CountEqual(vs, v) as real + 1.0) / 2.0
  }

  function RanksOf(vs: seq<real>): (ranks: seq<real>)
    ensures |ranks| == |vs|
  {
    seq(|vs|, i requires 0 <= i < |vs| => RankOf(vs, vs[i]))
  }

  // ---- sorting positions by value, earlier positions first among equals ----

  predicate Within(order: seq<nat>, n: nat) {
    forall p :: 0 <= p < |order| ==> order[p] < n
  }

  function Placed(vs: seq<real>, order: seq<nat>, x: nat): seq<nat>
    requires x < |vs| && Within(order, |vs|)
  {
    if order == [] || vs[x] < vs[order[0]] then [x] + order else [order[0]] + Placed(vs, order[1..], x)
  }

  lemma {:induction false} PlacedWithin(vs: seq<real>, order: seq<nat>, x: nat, n: nat)
    requires x < n <= |vs| && Within(order, n)
    ensures Within(Placed(vs, order, x), n)
  {
    if order != [] && vs[x] >= vs[order[0]] { PlacedWithin(vs, order[1..], x, n); }
  }

  function SortedPositions(vs: seq<real>, n: nat): (order: seq<nat>)
    requires n <= |vs|
    ensures Within(order, n)
  {
    if n == 0 then []
    else
      PlacedWithin(vs, SortedPositions(vs, n - 1), n - 1, n);
      Placed(vs, SortedPositions(vs, n - 1), n - 1)
  }

  /** Smaller value first; among equals, earlier position first. */
  predicate Ahead(vs: seq<real>, a: nat, b: nat)
    requires a < |vs| && b < |vs|
  {
    vs[a] < vs[b] || (vs[a] == vs[b] && a < b)
  }

  predicate Sorted(vs: seq<real>, order: seq<nat>)
    requires Within(order, |vs|)
  {
    forall p, q :: 0 <= p < q < |order| ==> Ahead(vs, order[p], order[q])
  }

  lemma {:induction false} PlacedMembers(vs: seq<real>, order: seq<nat>, x: nat)
    requires x < |vs| && Within(order, |vs|)
    ensures |Placed(vs, order, x)| == |order| + 1 && forall y :: y in Placed(vs, order, x) <==> y in order || y == x
  {
    if order != [] && vs[x] >= vs[order[0]] {
      PlacedMembers(vs, order[1..], x);
      assert order == [order[0]] + order[1..];
    }
  }

  lemma {:induction false} PlacedSorted(vs: seq<real>, order: seq<nat>, x: nat)
    requires x < |vs| && Within(order, |vs|) && Sorted(vs, order) && forall p :: 0 <= p < |order| ==> order[p] < x
    ensures Within(Placed(vs, order, x), |vs|) && Sorted(vs, Placed(vs, order, x))
  {
    PlacedWithin(vs, order, x, |vs|);
    if order != [] && vs[x] >= vs[order[0]] {
      PlacedSorted(vs, order[1..], x);
      PlacedMembers(vs, order[1..], x);
      var rest := Placed(vs, order[1..], x);
      forall q | 0 <= q < |rest| ensures Ahead(vs, order[0], rest[q]) {
        assert rest[q] in rest;
        if rest[q] != x {
          assert rest[q] in order[1..];
          var k :| 0 <= k < |order[1..]| && order[1..][k] == rest[q];
          assert order[k + 1] == rest[q];
        }
      }
    }
  }

  lemma {:induction false} SortedIs(vs: seq<real>, n: nat)
    requires n <= |vs|
    ensures var order := SortedPositions(vs, n);
            Within(order, |vs|) && Sorted(vs, order) && |order| == n && forall y :: y in order <==> 0 <= y < n
  {
    hide Ahead, Sorted;
    if n > 0 {
      SortedIs(vs, n - 1);
      var rest := SortedPositions(vs, n - 1);
      PlacedMembers(vs, rest, n - 1);
      PlacedSorted(vs, rest, n - 1);
    } else {
      assert Sorted(vs, []) by { NothingToSort(vs); }
    }
  }

  lemma NothingToSort(vs: seq<real>)
    ensures Sorted(vs, [])
  {
  }

  predicate AscendingBy(vs: seq<real>, order: seq<nat>)
    requires Within(order, |vs|)
  {
    forall p, q :: 0 <= p < q < |order| ==> vs[order[p]] <= vs[order[q]]
  }

  predicate NoRepeats(order: seq<nat>) {
    forall p, q :: 0 <= p < q < |order| ==> order[p] != order[q]
  }

  lemma SortedMeans(vs: seq<real>, order: seq<nat>)
    requires Within(order, |vs|) && Sorted(vs, order)
    ensures AscendingBy(vs, order) && NoRepeats(order)
  {
    forall p, q | 0 <= p < q < |order| ensures vs[order[p]] <= vs[order[q]] && order[p] != order[q] {
      assert Ahead(vs, order[p], order[q]);
    }
  }

  // ---- counting along the sorted order ----

  function LessAlong(vs: seq<real>, order: seq<nat>, v: real): nat
    requires Within(order, |vs|)
  {
    if order == [] then 0 else (if vs[order[0]] < v then 1 else 0) + LessAlong(vs, order[1..], v)
  }

  function EqualAlong(vs: seq<real>, order: seq<nat>, v: real): nat
    requires Within(order, |vs|)
  {
    if order == [] then 0 else (if vs[order[0]] == v then 1 else 0) + EqualAlong(vs, order[1..], v)
  }

  lemma {:induction false} PlacedCounts(vs: seq<real>, order: seq<nat>, x: nat, v: real)
    requires x < |vs| && Within(order, |vs|)
    ensures Within(Placed(vs, order, x), |vs|)
    ensures LessAlong(vs, Placed(vs, order, x), v) == LessAlong(vs, order, v) + (if vs[x] < v then 1 else 0)
    ensures EqualAlong(vs, Placed(vs, order, x), v) == EqualAlong(vs, order, v) + (if vs[x] == v then 1 else 0)
  {
    PlacedWithin(vs, order, x, |vs|);
    if order == [] || vs[x] < vs[order[0]] {
      assert ([x] + order)[1..] == order;
    } else {
      PlacedCounts(vs, order[1..], x, v);
      var rest := Placed(vs, order[1..], x);
      assert ([order[0]] + rest)[1..] == rest;
    }
  }

  lemma {:induction false} SortedCounts(vs: seq<real>, n: nat, v: real)
    requires n <= |vs|
    ensures Within(SortedPositions(vs, n), |vs|)
    ensures LessAlong(vs, SortedPositions(vs, n), v) == CountLess(vs[..n], v)
    ensures EqualAlong(vs, SortedPositions(vs, n), v) == CountEqual(vs[..n], v)
  {
    if n > 0 {
      SortedCounts(vs, n - 1, v);
      PlacedCounts(vs, SortedPositions(vs, n - 1), n - 1, v);
      assert vs[..n][..n - 1] == vs[..n - 1];
    }
  }

  /** In an ascending order whose equals of `v` are exactly positions `i` to `j`, the counts can be read off. */
  lemma {:induction false} BlockCounts(vs: seq<real>, order: seq<nat>, v: real, i: nat, j: nat)
    requires Within(order, |vs|) && i <= j <= |order|
    requires forall p :: 0 <= p < |order| ==>
               if p < i then vs[order[p]] < v else if p < j then vs[order[p]] == v else vs[order[p]] > v
    ensures LessAlong(vs, order, v) == i && EqualAlong(vs, order, v) == j - i
  {
    if order != [] {
      assert forall p :: 0 <= p < |order| - 1 ==> order[1..][p] == order[p + 1];
      BlockCounts(vs, order[1..], v, if i > 0 then i - 1 else 0, if j > 0 then j - 1 else 0);
    }
  }

  /** The average of one-based positions `i` to `j - 1` is the counting rank of the block's value. */
  lemma {:induction false} BlockRank(vs: seq<real>, v: real, i: nat, j: nat)
    requires i < j <= |vs|
    requires var order := SortedPositions(vs, |vs|);
             |order| == |vs| && forall p :: 0 <= p < |order| ==>
               if p < i then vs[order[p]] < v else if p < j then vs[order[p]] == v else vs[order[p]] > v
    ensures (i as real + (j - 1) as real) / 2.0 + 1.0 == RankOf(vs, v)
  {
    SortedCounts(vs, |vs|, v);
    assert vs[..|vs|] == vs;
    BlockCounts(vs, SortedPositions(vs, |vs|), v, i, j);
  }

  /** The end of the tied block that starts at position `i`. */
  method BlockEnd(values: seq<real>, order: seq<nat>, i: nat) returns (j: nat)
    requires Within(order, |values|) && AscendingBy(values, order) && i < |order|
    requires i > 0 ==> values[order[i - 1]] < values[order[i]]
    ensures i < j <= |order| && (j < |order| ==> values[order[j - 1]] < values[order[j]])
    ensures forall p :: 0 <= p < |order| ==>
              if p < i then values[order[p]] < values[order[i]]
              else if p < j then values[order[p]] == values[order[i]] else values[order[p]] > values[order[i]]
  {
    var k := i;
    while k + 1 < |order| && values[order[k + 1]] == values[order[i]]
      invariant i <= k < |order| && forall p :: i <= p <= k ==> values[order[p]] == values[order[i]]
    {
      k := k + 1;
    }
    j := k + 1;
    forall p | 0 <= p < |order|
      ensures if p < i then values[order[p]] < values[order[i]]
              else if p < j then values[order[p]] == values[order[i]] else values[order[p]] > values[order[i]]
    {
      if p < i { assert values[order[p]] <= values[order[i - 1]]; }
      if p >= j { assert values[order[j]] <= values[order[p]]; }
    }
  }

  method FillBlock(ranks: seq<real>, order: seq<nat>, i: nat, j: nat, average: real) returns (r: seq<real>)
    requires Within(order, |ranks|) && NoRepeats(order) && i <= j <= |order|
    ensures |r| == |ranks|
    ensures forall p :: 0 <= p < |order| ==> r[order[p]] == if i <= p < j then average else ranks[order[p]]
  {
    r := ranks;
    for k := i to j
      invariant |r| == |ranks|
      invariant forall p :: 0 <= p < |order| ==> r[order[p]] == if i <= p < k then average else ranks[order[p]]
    {
      r := r[order[k] := average];
    }
  }

  method AverageRanks(values: seq<real>) returns (ranks: seq<real>)
    ensures ranks == RanksOf(values)
  {
    hide RankOf, SortedPositions, AscendingBy, NoRepeats, Sorted;
    var n := |values|;
    var order := SortedPositions(values, n);
    SortedIs(values, n);
    SortedMeans(values, order);
    ranks := seq(n, k => 0.0);
    var i := 0;
    while i < n
      invariant i <= n && |ranks| == n
      invariant 0 < i < n ==> values[order[i - 1]] < values[order[i]]
      invariant forall p :: 0 <= p < i ==> ranks[order[p]] == RankOf(values, values[order[p]])
    {
      var j := BlockEnd(values, order, i);
      var average := (i as real + (j - 1) as real) / 2.0 + 1.0;
      BlockRank(values, values[order[i]], i, j);
      ranks := FillBlock(ranks, order, i, j, average);
      i := j;
    }
    forall k | 0 <= k < n ensures ranks[k] == RankOf(values, values[k]) {
      assert k in order;
      var p :| 0 <= p < n && order[p] == k;
    }
  }

  // ---- what ranks are ----

  /** One against another: a win, a half for a tie. */
  function Beats(x: real, y: real): real {
    if y < x then 1.0 else if y == x then 0.5 else 0.0
  }

  function Score(v: real, vs: seq<real>): real {
    if vs == [] then 0.0 else Score(v, vs[..|vs| - 1]) + Beats(v, vs[|vs| - 1])
  }

  function ScoreAgainst(v: real, vs: seq<real>): real {
    if vs == [] then 0.0 else ScoreAgainst(v, vs[..|vs| - 1]) + Beats(vs[|vs| - 1], v)
  }

  lemma {:induction false} RankIsScore(vs: seq<real>, v: real)
    ensures RankOf(vs, v) == Score(v, vs) + 0.5
    ensures Score(v, vs) == CountLess(vs, v) as real + CountEqual(vs, v) as real / 2.0
  {
    if vs != [] { RankIsScore(vs[..|vs| - 1], v); }
  }

  lemma {:induction false} EveryPairScoresOne(vs: seq<real>, v: real)
    ensures Score(v, vs) + ScoreAgainst(v, vs) == |vs| as real
  {
    if vs != [] { EveryPairScoresOne(vs[..|vs| - 1], v); }
  }

  /** The scores of `who` against all of `vs`. */
  function AllScores(who: seq<real>, vs: seq<real>): real {
    if who == [] then 0.0 else AllScores(who[..|who| - 1], vs) + Score(who[|who| - 1], vs)
  }

  lemma {:induction false} ScoresAgainstOneMore(who: seq<real>, vs: seq<real>, v: real)
    ensures AllScores(who, vs + [v]) == AllScores(who, vs) + ScoreAgainst(v, who)
  {
    if who != [] {
      ScoresAgainstOneMore(who[..|who| - 1], vs, v);
      assert (vs + [v])[..|vs|] == vs;
    }
  }

  lemma {:induction false} HalfOfAllPairs(vs: seq<real>)
    ensures AllScores(vs, vs) == |vs| as real * |vs| as real / 2.0
  {
    if vs != [] {
      var n := |vs| - 1;
      var rest, v := vs[..n], vs[n];
      HalfOfAllPairs(rest);
      assert vs == rest + [v];
      ScoresAgainstOneMore(rest, rest, v);
      EveryPairScoresOne(rest, v);
      assert Score(v, vs) == Score(v, rest) + 0.5;
      var m := n as real;
      assert (m + 1.0) * (m + 1.0) == m * m + 2.0 * m + 1.0;
    }
  }

  function Total(s: seq<real>): real {
    if s == [] then 0.0 else Total(s[..|s| - 1]) + s[|s| - 1]
  }

  lemma {:induction false} RanksAreScores(vs: seq<real>, n: nat)
    requires n <= |vs|
    ensures Total(RanksOf(vs)[..n]) == AllScores(vs[..n], vs) + n as real / 2.0
  {
    if n == 0 {
      assert RanksOf(vs)[..0] == [] && vs[..0] == [];
    } else {
      RanksAreScores(vs, n - 1);
      RankIsScore(vs, vs[n - 1]);
      assert RanksOf(vs)[..n][..n - 1] == RanksOf(vs)[..n - 1] && vs[..n][..n - 1] == vs[..n - 1];
    }
  }

  /** Ties or not, the ranks of n values sum to n(n+1)/2. */
  lemma RanksSum(vs: seq<real>)
    ensures Total(RanksOf(vs)) == |vs| as real * (|vs| as real + 1.0) / 2.0
  {
    RanksAreScores(vs, |vs|);
    HalfOfAllPairs(vs);
    assert vs[..|vs|] == vs && RanksOf(vs)[..|vs|] == RanksOf(vs);
    var n := |vs| as real;
    assert n * (n + 1.0) == n * n + n;
  }

  lemma {:induction false} HigherScoresMore(vs: seq<real>, a: real, b: real)
    requires a < b
    ensures Score(a, vs) <= Score(b, vs) && (a in vs ==> Score(a, vs) < Score(b, vs))
  {
    if vs != [] {
      HigherScoresMore(vs[..|vs| - 1], a, b);
      assert vs == vs[..|vs| - 1] + [vs[|vs| - 1]];
    }
  }

  /** Ranks order values exactly: smaller below larger, equal alike. */
  lemma RanksKeepOrder(vs: seq<real>, i: nat, j: nat)
    requires i < |vs| && j < |vs|
    ensures vs[i] < vs[j] <==> RanksOf(vs)[i] < RanksOf(vs)[j]
    ensures vs[i] == vs[j] <==> RanksOf(vs)[i] == RanksOf(vs)[j]
  {
    RankIsScore(vs, vs[i]);
    RankIsScore(vs, vs[j]);
    if vs[i] < vs[j] { HigherScoresMore(vs, vs[i], vs[j]); }
    if vs[j] < vs[i] { HigherScoresMore(vs, vs[j], vs[i]); }
  }

  // ---- transforms ----

  function Mapped(f: real -> real, vs: seq<real>): seq<real> {
    seq(|vs|, i requires 0 <= i < |vs| => f(vs[i]))
  }

  ghost predicate StrictlyIncreasing(f: real -> real) {
    forall a, b :: a < b ==> f(a) < f(b)
  }

  lemma {:induction false} MappedCounts(f: real -> real, vs: seq<real>, v: real)
    requires StrictlyIncreasing(f)
    ensures CountLess(Mapped(f, vs), f(v)) == CountLess(vs, v) && CountEqual(Mapped(f, vs), f(v)) == CountEqual(vs, v)
  {
    if vs != [] {
      var n := |vs| - 1;
      assert Mapped(f, vs)[..n] == Mapped(f, vs[..n]);
      MappedCounts(f, vs[..n], v);
    }
  }

  /** A strictly increasing transform changes no rank. */
  lemma TransformKeepsRanks(f: real -> real, vs: seq<real>)
    requires StrictlyIncreasing(f)
    ensures RanksOf(Mapped(f, vs)) == RanksOf(vs)
  {
    forall i | 0 <= i < |vs| ensures RanksOf(Mapped(f, vs))[i] == RanksOf(vs)[i] {
      MappedCounts(f, vs, vs[i]);
    }
  }

  // ---- the rank correlation ----

  /** `Rho` stands for num / sqrt(varX * varY). */
  datatype Correlation = Undefined | Rho(num: real, varX: real, varY: real)

  function Mean(s: seq<real>): real
    requires s != []
  {
    Total(s) / |s| as real
  }

  function Mul(x: real, y: real): real { x * y }

  function Cross(a: seq<real>, b: seq<real>, ma: real, mb: real): real
    requires |a| == |b|
  {
    if a == [] then 0.0
    else var n := |a| - 1; Cross(a[..n], b[..n], ma, mb) + Mul(a[n] - ma, b[n] - mb)
  }

  function Pearson(a: seq<real>, b: seq<real>): Correlation
    requires |a| == |b| > 0
  {
    var vx, vy := Cross(a, a, Mean(a), Mean(a)), Cross(b, b, Mean(b), Mean(b));
    if vx == 0.0 || vy == 0.0 then Undefined else Rho(Cross(a, b, Mean(a), Mean(b)), vx, vy)
  }

  function Spearman(xs: seq<real>, ys: seq<real>): Correlation {
    if |xs| < 2 || |xs| != |ys| then Undefined else Pearson(RanksOf(xs), RanksOf(ys))
  }

  method SpearmanOf(xs: seq<real>, ys: seq<real>) returns (r: Correlation)
    ensures r == Spearman(xs, ys)
  {
    if |xs| < 2 || |xs| != |ys| { return Undefined; }
    var rx := AverageRanks(xs);
    var ry := AverageRanks(ys);
    r := Pearson(rx, ry);
  }

  lemma {:induction false} CrossSymmetric(a: seq<real>, b: seq<real>, ma: real, mb: real)
    requires |a| == |b|
    ensures Cross(a, b, ma, mb) == Cross(b, a, mb, ma)
  {
    if a != [] { CrossSymmetric(a[..|a| - 1], b[..|a| - 1], ma, mb); }
  }

  function Swapped(c: Correlation): Correlation {
    if c.Undefined? then c else Rho(c.num, c.varY, c.varX)
  }

  /** Symmetric, and unchanged by strictly increasing transforms of either series. */
  lemma SpearmanLaws(xs: seq<real>, ys: seq<real>, f: real -> real, g: real -> real)
    requires StrictlyIncreasing(f) && StrictlyIncreasing(g)
    ensures Spearman(ys, xs) == Swapped(Spearman(xs, ys))
    ensures Spearman(Mapped(f, xs), Mapped(g, ys)) == Spearman(xs, ys)
  {
    TransformKeepsRanks(f, xs);
    TransformKeepsRanks(g, ys);
    if |xs| >= 2 && |xs| == |ys| {
      var a, b := RanksOf(xs), RanksOf(ys);
      CrossSymmetric(a, b, Mean(a), Mean(b));
    }
  }

  lemma {:induction false} SpreadNotNegative(a: seq<real>, m: real)
    ensures Cross(a, a, m, m) >= 0.0
    ensures Cross(a, a, m, m) == 0.0 <==> forall i :: 0 <= i < |a| ==> a[i] == m
  {
    if a != [] {
      var n := |a| - 1;
      hide Mul;
      SpreadNotNegative(a[..n], m);
      SquareSign(a[n] - m);
      assert forall i :: 0 <= i < n ==> a[..n][i] == a[i];
    }
  }

  lemma MulSigns(x: real, y: real)
    ensures x > 0.0 && y > 0.0 ==> Mul(x, y) > 0.0
    ensures x < 0.0 && y < 0.0 ==> Mul(x, y) > 0.0
    ensures x == 0.0 ==> Mul(x, y) == 0.0
  {
    if x < 0.0 && y < 0.0 {
      assert (-x) * (-y) > 0.0;
      assert x * y == (-x) * (-y);
    }
  }

  lemma SquareSign(d: real)
    ensures Mul(d, d) >= 0.0 && (Mul(d, d) == 0.0 <==> d == 0.0)
  {
    hide Mul;
    MulSigns(d, d);
  }

  lemma Square(d: real)
    ensures d * d >= 0.0 && (d * d == 0.0 <==> d == 0.0)
  {
    SquareSign(d);
    assert Mul(d, d) == d * d;
  }

  predicate Constant(vs: seq<real>) {
    forall i, j :: 0 <= i < |vs| && 0 <= j < |vs| ==> vs[i] == vs[j]
  }

  lemma {:induction false} ConstantTotal(a: seq<real>, c: real)
    requires forall i :: 0 <= i < |a| ==> a[i] == c
    ensures Total(a) == |a| as real * c
  {
    if a != [] { ConstantTotal(a[..|a| - 1], c); }
  }

  lemma ZeroSpreadIffConstant(vs: seq<real>)
    requires vs != []
    ensures var a := RanksOf(vs); Cross(a, a, Mean(a), Mean(a)) == 0.0 <==> Constant(vs)
  {
    hide RankOf, Cross, RanksOf;
    var a := RanksOf(vs);
    SpreadNotNegative(a, Mean(a));
    forall i, j | 0 <= i < |vs| && 0 <= j < |vs| ensures vs[i] == vs[j] <==> a[i] == a[j] {
      RanksKeepOrder(vs, i, j);
    }
    if Constant(vs) {
      forall i | 0 <= i < |a| ensures a[i] == a[0] { assert vs[i] == vs[0]; }
      ConstantTotal(a, a[0]);
    }
  }

  /** The correlation is defined exactly for two series of one length, at least two, neither of them constant. */
  lemma DefinedExactly(xs: seq<real>, ys: seq<real>)
    ensures Spearman(xs, ys).Rho? <==> |xs| == |ys| >= 2 && !Constant(xs) && !Constant(ys)
  {
    if |xs| == |ys| >= 2 {
      ZeroSpreadIffConstant(xs);
      ZeroSpreadIffConstant(ys);
    }
  }

  predicate AtMostOne(p: real, a: real, b: real) { p * p <= a * b }

  lemma CauchyStep(p: real, a: real, b: real, x: real, y: real)
    requires a >= 0.0 && b >= 0.0 && AtMostOne(p, a, b)
    ensures AtMostOne(p + Mul(x, y), a + Mul(x, x), b + Mul(y, y))
  {
    Square(p);
    var cross := a * (y * y) + b * (x * x) - 2.0 * p * (x * y);
    if a == 0.0 {
      assert p == 0.0;
      assert b * (x * x) >= 0.0 by { Square(x); }
      assert cross >= 0.0;
    } else {
      Square(a * y - p * x);
      Square(x);
      assert (a * y - p * x) * (a * y - p * x) == a * y * (a * y) - 2.0 * (a * y) * (p * x) + p * x * (p * x);
      assert a * cross == a * y * (a * y) + (a * b) * (x * x) - 2.0 * (a * y) * (p * x);
      assert (a * b) * (x * x) >= (p * p) * (x * x);
      assert p * x * (p * x) == (p * p) * (x * x);
      assert a * cross >= 0.0;
      assert cross >= 0.0;
    }
    assert (a + x * x) * (b + y * y) == a * b + a * (y * y) + b * (x * x) + (x * x) * (y * y);
    assert (p + x * y) * (p + x * y) == p * p + 2.0 * p * (x * y) + (x * y) * (x * y);
    assert (x * x) * (y * y) == (x * y) * (x * y);
  }

  lemma {:induction false} CauchySchwarz(a: seq<real>, b: seq<real>, ma: real, mb: real)
    requires |a| == |b|
    ensures AtMostOne(Cross(a, b, ma, mb), Cross(a, a, ma, ma), Cross(b, b, mb, mb))
  {
    hide Mul;
    if a == [] {
      assert AtMostOne(0.0, 0.0, 0.0);
    } else {
      hide Cross, AtMostOne;
      var n := |a| - 1;
      var p, u, v := Cross(a[..n], b[..n], ma, mb), Cross(a[..n], a[..n], ma, ma), Cross(b[..n], b[..n], mb, mb);
      assert AtMostOne(p, u, v) by { CauchySchwarz(a[..n], b[..n], ma, mb); }
      assert u >= 0.0 && v >= 0.0 by { SpreadNotNegative(a[..n], ma); SpreadNotNegative(b[..n], mb); }
      var x, y := a[n] - ma, b[n] - mb;
      assert AtMostOne(p + Mul(x, y), u + Mul(x, x), v + Mul(y, y)) by { CauchyStep(p, u, v, x, y); }
      assert Cross(a, b, ma, mb) == p + Mul(x, y) && Cross(a, a, ma, ma) == u + Mul(x, x) by {
        CrossNext(a, b, ma, mb);
        CrossNext(a, a, ma, ma);
      }
      assert Cross(b, b, mb, mb) == v + Mul(y, y) by { CrossNext(b, b, mb, mb); }
    }
  }

  lemma {:induction false} CrossNext(a: seq<real>, b: seq<real>, ma: real, mb: real)
    requires |a| == |b| > 0
    ensures var n := |a| - 1; Cross(a, b, ma, mb) == Cross(a[..n], b[..n], ma, mb) + Mul(a[n] - ma, b[n] - mb)
  {
  }

  /** Never beyond one in magnitude, and exactly one for a series against itself. */
  lemma SpearmanBounded(xs: seq<real>, ys: seq<real>)
    ensures var c := Spearman(xs, ys); c.Rho? ==> c.num * c.num <= c.varX * c.varY
    ensures var c := Spearman(xs, xs); c.Rho? ==> c.num == c.varX == c.varY > 0.0
  {
    hide Cross, RanksOf, Mean;
    if |xs| == |ys| >= 2 {
      CauchySchwarz(RanksOf(xs), RanksOf(ys), Mean(RanksOf(xs)), Mean(RanksOf(ys)));
    }
    if |xs| >= 2 { SpreadNotNegative(RanksOf(xs), Mean(RanksOf(xs))); }
  }

  // ---- what the correlation is ----

  /** The sum of the products of two series. */
  function Dot(a: seq<real>, b: seq<real>): real
    requires |a| == |b|
  {
    if a == [] then 0.0 else Dot(a[..|a| - 1], b[..|b| - 1]) + a[|a| - 1] * b[|b| - 1]
  }

  lemma {:induction false} CrossIsDot(a: seq<real>, b: seq<real>, ma: real, mb: real)
    requires |a| == |b|
    ensures Cross(a, b, ma, mb) == Dot(a, b) - ma * Total(b) - mb * Total(a) + |a| as real * (ma * mb)
  {
    if a != [] {
      var n := |a| - 1;
      CrossIsDot(a[..n], b[..n], ma, mb);
      Product(a[n], b[n], ma, mb);
      assert (n as real + 1.0) * (ma * mb) == n as real * (ma * mb) + ma * mb;
      assert ma * (Total(b[..n]) + b[n]) == ma * Total(b[..n]) + ma * b[n];
      assert mb * (Total(a[..n]) + a[n]) == mb * Total(a[..n]) + mb * a[n];
    }
  }

  lemma Product(x: real, y: real, mx: real, my: real)
    ensures Mul(x - mx, y - my) == x * y - mx * y - my * x + mx * my
  {
  }

  lemma MeanRank(vs: seq<real>)
    requires vs != []
    ensures var n := |vs| as real;
            Mean(RanksOf(vs)) == (n + 1.0) / 2.0 && Total(RanksOf(vs)) == n * ((n + 1.0) / 2.0)
  {
    RanksSum(vs);
    var n := |vs| as real;
    OverAll(n, (n + 1.0) / 2.0, Total(RanksOf(vs)));
  }

  lemma OverAll(n: real, x: real, total: real)
    requires n != 0.0 && total == n * x
    ensures total / n == x
  {
  }

  lemma {:induction false} CenteredDot(xs: seq<real>, ys: seq<real>)
    requires |xs| == |ys| > 0
    ensures var a, b, n := RanksOf(xs), RanksOf(ys), |xs| as real;
            Cross(a, b, Mean(a), Mean(b)) == Dot(a, b) - n * (n + 1.0) * (n + 1.0) / 4.0
  {
    hide RanksOf, Mean, Cross, Dot, Total;
    var a, b, n := RanksOf(xs), RanksOf(ys), |xs| as real;
    MeanRank(xs);
    MeanRank(ys);
    var m := (n + 1.0) / 2.0;
    CrossIsDot(a, b, m, m);
    assert m * (n * m) == n * (m * m);
    assert n * (n + 1.0) * (n + 1.0) / 4.0 == n * (m * m);
  }

  /** The correlation of two series is that of their ranks: with ranks a and b of n values, the sum of a times b less
      n(n+1)(n+1)/4, over the root of the same for a with itself and b with itself. */
  lemma {:induction false} SpearmanIs(xs: seq<real>, ys: seq<real>)
    requires Spearman(xs, ys).Rho?
    ensures |xs| == |ys|
    ensures var a, b, n := RanksOf(xs), RanksOf(ys), |xs| as real;
            var middle := n * (n + 1.0) * (n + 1.0) / 4.0;
            Spearman(xs, ys) == Rho(Dot(a, b) - middle, Dot(a, a) - middle, Dot(b, b) - middle)
  {
    hide RanksOf, Mean, Cross, Dot;
    CenteredDot(xs, ys);
    CenteredDot(xs, xs);
    CenteredDot(ys, ys);
  }

  ghost predicate StrictlyDecreasing(f: real -> real) {
    forall a, b :: a < b ==> f(a) > f(b)
  }

  lemma {:induction false} FlippedCounts(f: real -> real, vs: seq<real>, v: real)
    requires StrictlyDecreasing(f)
    ensures CountEqual(Mapped(f, vs), f(v)) == CountEqual(vs, v)
    ensures CountLess(Mapped(f, vs), f(v)) + CountLess(vs, v) + CountEqual(vs, v) == |vs|
  {
    if vs != [] {
      var n := |vs| - 1;
      assert Mapped(f, vs)[..n] == Mapped(f, vs[..n]);
      FlippedCounts(f, vs[..n], v);
    }
  }

  /** Turned upside down, the k-th of n becomes the (n + 1 - k)-th. */
  lemma FlippedRanks(f: real -> real, vs: seq<real>, i: nat)
    requires StrictlyDecreasing(f) && i < |vs|
    ensures RanksOf(Mapped(f, vs))[i] == |vs| as real + 1.0 - RanksOf(vs)[i]
  {
    FlippedCounts(f, vs, vs[i]);
  }

  lemma {:induction false} CrossFlips(a: seq<real>, b: seq<real>, c: seq<real>, ma: real, mb: real, s: real)
    requires |a| == |b| == |c| && forall i :: 0 <= i < |b| ==> c[i] == s - b[i]
    ensures Cross(a, c, ma, s - mb) == -Cross(a, b, ma, mb)
    ensures Cross(c, c, s - mb, s - mb) == Cross(b, b, mb, mb)
  {
    if a != [] {
      var n := |a| - 1;
      CrossFlips(a[..n], b[..n], c[..n], ma, mb, s);
      MulNegates(a[n] - ma, b[n] - mb);
      assert c[n] - (s - mb) == -(b[n] - mb);
    }
  }

  lemma MulNegates(x: real, y: real)
    ensures Mul(x, -y) == -Mul(x, y) && Mul(-y, -y) == Mul(y, y)
  {
  }

  /** Turning one series upside down turns the sign, so a series against its own reverse has correlation minus one. */
  lemma {:induction false} ReverseNegates(xs: seq<real>, ys: seq<real>, f: real -> real)
    requires StrictlyDecreasing(f)
    ensures match Spearman(xs, ys)
            case Undefined => Spearman(xs, Mapped(f, ys)).Undefined?
            case Rho(num, varX, varY) => Spearman(xs, Mapped(f, ys)) == Rho(-num, varX, varY)
    ensures var c := Spearman(xs, Mapped(f, xs)); c.Rho? ==> -c.num == c.varX == c.varY > 0.0
  {
    hide RanksOf, Cross, Mean;
    if |xs| == |ys| >= 2 { Reversed(xs, ys, f); }
    if |xs| >= 2 { Reversed(xs, xs, f); }
    SpearmanBounded(xs, xs);
  }

  lemma Reversed(xs: seq<real>, ys: seq<real>, f: real -> real)
    requires StrictlyDecreasing(f) && |xs| == |ys| > 0
    ensures var a, b, c := RanksOf(xs), RanksOf(ys), RanksOf(Mapped(f, ys));
            && Cross(a, c, Mean(a), Mean(c)) == -Cross(a, b, Mean(a), Mean(b))
            && Cross(c, c, Mean(c), Mean(c)) == Cross(b, b, Mean(b), Mean(b))
  {
    hide RankOf, Cross, Mean;
    var a, b, c := RanksOf(xs), RanksOf(ys), RanksOf(Mapped(f, ys));
    var s := |ys| as real + 1.0;
    forall i | 0 <= i < |b| ensures c[i] == s - b[i] {
      FlippedRanks(f, ys, i);
    }
    MeanRank(ys);
    MeanRank(Mapped(f, ys));
    CrossFlips(a, b, c, Mean(a), Mean(b), s);
  }
}
