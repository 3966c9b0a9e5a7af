/** Reordering the queue: events due at one instant that have nothing to do with each other may change places. Draw
    numbers are forgotten first, since which of two such events draws first is all their order decides. */
module SimulatorSwaps {
  import opened Common
  import opened SimulatorModel
  import opened SimulatorPolling
  import opened SimulatorTimeline

  // ---- what an event has to do with ----

  /** The symbol whose position the event may move. */
  function Touches(orders: seq<Order>, e: Event): Option<string> {
    if e.Fill? && e.orderId < |orders| then Some(orders[e.orderId].instrument.symbol)
    else if e.PostRow? && e.row.coinDelta.Some? then Some(e.row.coinDelta.value.0)
    else None
  }

  /** The events that are ever queued in another order: limit fills and fee postings. */
  predicate Loose(orders: seq<Order>, e: Event) {
    (e.Fill? && e.orderId < |orders| && orders[e.orderId].limit.Some?) || e.PostBatch? || e.PostRow?
  }

  predicate Apart(orders: seq<Order>, e: Event, f: Event) {
    && Loose(orders, e) && Loose(orders, f)
    && !(Touches(orders, e).Some? && Touches(orders, e) == Touches(orders, f))
  }

  // ---- forgetting draw numbers ----

  function Plain(e: Event): Event {
    if e.PostRow? then PostRow(e.row.(executionId := None)) else e
  }

  function PlainTimed(t: Timed): Timed { Timed(t.at, Plain(t.event)) }

  function PlainQueue(queue: seq<Timed>): (r: seq<Timed>)
    ensures |r| == |queue| && forall i :: 0 <= i < |r| ==> r[i] == PlainTimed(queue[i])
  {
    if queue == [] then [] else [PlainTimed(queue[0])] + PlainQueue(queue[1..])
  }

  lemma {:induction false} PlainInsert(queue: seq<Timed>, at: int, e: Event)
    ensures PlainQueue(Insert(queue, at, e)) == Insert(PlainQueue(queue), at, Plain(e))
  {
    if queue == [] || at < queue[0].at {
      assert ([Timed(at, e)] + queue)[1..] == queue;
    } else {
      PlainInsert(queue[1..], at, e);
      assert ([queue[0]] + Insert(queue[1..], at, e))[1..] == Insert(queue[1..], at, e);
      assert PlainQueue(queue)[1..] == PlainQueue(queue[1..]);
    }
  }

  // ---- pushing several events ----

  /** The events pushed one after another. */
  function Merge(queue: seq<Timed>, pushed: seq<Timed>): seq<Timed>
    decreases |pushed|
  {
    if pushed == [] then queue else Merge(Insert(queue, pushed[0].at, pushed[0].event), pushed[1..])
  }

  lemma {:induction false} MergeParts(queue: seq<Timed>, a: seq<Timed>, b: seq<Timed>)
    ensures Merge(queue, a + b) == Merge(Merge(queue, a), b)
    decreases |a|
  {
    if a == [] {
      assert a + b == b;
    } else {
      assert (a + b)[1..] == a[1..] + b;
      MergeParts(Insert(queue, a[0].at, a[0].event), a[1..], b);
    }
  }

  lemma {:induction false} MergeOne(queue: seq<Timed>, t: Timed)
    ensures Merge(queue, [t]) == Insert(queue, t.at, t.event)
  {
    assert [t][1..] == [];
  }

  lemma {:induction false} PlainMerge(queue: seq<Timed>, pushed: seq<Timed>)
    ensures PlainQueue(Merge(queue, pushed)) == Merge(PlainQueue(queue), PlainQueue(pushed))
    decreases |pushed|
  {
    if pushed != [] {
      PlainInsert(queue, pushed[0].at, pushed[0].event);
      PlainMerge(Insert(queue, pushed[0].at, pushed[0].event), pushed[1..]);
      assert PlainQueue(pushed)[1..] == PlainQueue(pushed[1..]);
    }
  }

  lemma {:induction false} InsertPastMerge(queue: seq<Timed>, pushed: seq<Timed>, at: int, e: Event)
    requires forall t :: t in pushed ==> t.at > at
    ensures Insert(Merge(queue, pushed), at, e) == Merge(Insert(queue, at, e), pushed)
    decreases |pushed|
  {
    if pushed != [] {
      var t := pushed[0];
      assert t in pushed;
      InsertPastMerge(Insert(queue, t.at, t.event), pushed[1..], at, e);
      InsertCommutes(queue, t.at, t.event, at, e);
    }
  }

  /** Pushing one more event onto what was pushed is pushing it last. */
  lemma {:induction false} MergeInsert(queue: seq<Timed>, pushed: seq<Timed>, at: int, e: Event)
    requires Sorted(pushed)
    ensures Merge(queue, Insert(pushed, at, e)) == Insert(Merge(queue, pushed), at, e)
    decreases |pushed|
  {
    if pushed == [] {
      MergeOne(queue, Timed(at, e));
    } else if at < pushed[0].at {
      assert ([Timed(at, e)] + pushed)[1..] == pushed;
      forall t | t in pushed ensures t.at > at { var i :| 0 <= i < |pushed| && pushed[i] == t; }
      InsertPastMerge(queue, pushed, at, e);
    } else {
      assert Sorted(pushed[1..]);
      assert ([pushed[0]] + Insert(pushed[1..], at, e))[1..] == Insert(pushed[1..], at, e);
      MergeInsert(Insert(queue, pushed[0].at, pushed[0].event), pushed[1..], at, e);
    }
  }

  /** What is not due before the head goes behind it. */
  lemma {:induction false} MergeBehindHead(head: Timed, rest: seq<Timed>, pushed: seq<Timed>)
    requires forall t :: t in pushed ==> t.at >= head.at
    ensures Merge([head] + rest, pushed) == [head] + Merge(rest, pushed)
    decreases |pushed|
  {
    if pushed != [] {
      assert pushed[0] in pushed;
      assert ([head] + rest)[1..] == rest;
      MergeBehindHead(head, Insert(rest, pushed[0].at, pushed[0].event), pushed[1..]);
    }
  }

  // ---- swaps ----

  /** Two neighbours due at one instant, with nothing to do with each other, change places. */
  predicate SwapsAt(orders: seq<Order>, p: seq<Timed>, q: seq<Timed>, i: int) {
    && 0 <= i && i + 1 < |p|
    && p[i].at == p[i + 1].at && Apart(orders, p[i].event, p[i + 1].event)
    && q == p[i := p[i + 1]][i + 1 := p[i]]
  }

  ghost predicate Swaps(orders: seq<Order>, p: seq<Timed>, q: seq<Timed>) {
    exists i :: SwapsAt(orders, p, q, i)
  }

  ghost predicate ConnectedIn(orders: seq<Order>, p: seq<Timed>, q: seq<Timed>, n: nat)
    decreases n
  {
    if n == 0 then p == q else exists m :: Swaps(orders, p, m) && ConnectedIn(orders, m, q, n - 1)
  }

  /** One queue becomes the other by such swaps. */
  ghost predicate Connected(orders: seq<Order>, p: seq<Timed>, q: seq<Timed>) {
    exists n: nat :: ConnectedIn(orders, p, q, n)
  }

  lemma {:induction false} Same(orders: seq<Order>, p: seq<Timed>)
    ensures Connected(orders, p, p)
  {
    assert ConnectedIn(orders, p, p, 0);
  }

  lemma {:induction false} OneSwap(orders: seq<Order>, p: seq<Timed>, q: seq<Timed>, i: int)
    requires SwapsAt(orders, p, q, i)
    ensures Connected(orders, p, q)
  {
    assert Swaps(orders, p, q) && ConnectedIn(orders, q, q, 0);
    assert ConnectedIn(orders, p, q, 1);
  }

  lemma {:induction false} ChainParts(orders: seq<Order>, p: seq<Timed>, q: seq<Timed>, r: seq<Timed>, n: nat, k: nat)
    requires ConnectedIn(orders, p, q, n) && ConnectedIn(orders, q, r, k)
    ensures ConnectedIn(orders, p, r, n + k)
    decreases n
  {
    if n > 0 {
      var m :| Swaps(orders, p, m) && ConnectedIn(orders, m, q, n - 1);
      ChainParts(orders, m, q, r, n - 1, k);
    }
  }

  lemma {:induction false} Chain(orders: seq<Order>, p: seq<Timed>, q: seq<Timed>, r: seq<Timed>)
    requires Connected(orders, p, q) && Connected(orders, q, r)
    ensures Connected(orders, p, r)
  {
    var n: nat :| ConnectedIn(orders, p, q, n);
    var k: nat :| ConnectedIn(orders, q, r, k);
    ChainParts(orders, p, q, r, n, k);
  }

  /** The same events at the same instants. */
  lemma {:induction false} SwapKeeps(orders: seq<Order>, p: seq<Timed>, q: seq<Timed>, i: int)
    requires SwapsAt(orders, p, q, i)
    ensures |q| == |p| && multiset(q) == multiset(p) && forall j :: 0 <= j < |p| ==> q[j].at == p[j].at
  {
  }

  lemma {:induction false} ConnectedKeeps(orders: seq<Order>, p: seq<Timed>, q: seq<Timed>, n: nat)
    requires ConnectedIn(orders, p, q, n)
    ensures |q| == |p| && multiset(q) == multiset(p) && forall j :: 0 <= j < |p| ==> q[j].at == p[j].at
    decreases n
  {
    if n > 0 {
      var m :| Swaps(orders, p, m) && ConnectedIn(orders, m, q, n - 1);
      var i :| SwapsAt(orders, p, m, i);
      SwapKeeps(orders, p, m, i);
      ConnectedKeeps(orders, m, q, n - 1);
    }
  }

  // ---- swaps survive pushing ----

  lemma {:induction false} InsertKeepsSwap(orders: seq<Order>, p: seq<Timed>, q: seq<Timed>, i: int, at: int, e: Event)
    requires SwapsAt(orders, p, q, i)
    ensures Swaps(orders, Insert(p, at, e), Insert(q, at, e))
    decreases |p|
  {
    var t := Timed(at, e);
    if at < p[0].at {
      assert SwapsAt(orders, [t] + p, [t] + q, i + 1);
    } else if i == 0 {
      var rest := p[2..];
      assert p[1..] == [p[1]] + rest && q[1..] == [p[0]] + rest && q[0] == p[1];
      assert ([p[1]] + rest)[1..] == rest && ([p[0]] + rest)[1..] == rest;
      assert Insert(p, at, e) == [p[0]] + ([p[1]] + Insert(rest, at, e));
      assert Insert(q, at, e) == [p[1]] + ([p[0]] + Insert(rest, at, e));
      assert SwapsAt(orders, Insert(p, at, e), Insert(q, at, e), 0);
    } else {
      assert q[0] == p[0] && SwapsAt(orders, p[1..], q[1..], i - 1);
      InsertKeepsSwap(orders, p[1..], q[1..], i - 1, at, e);
      var a, b := Insert(p[1..], at, e), Insert(q[1..], at, e);
      var j :| SwapsAt(orders, a, b, j);
      assert SwapsAt(orders, [p[0]] + a, [q[0]] + b, j + 1);
    }
  }

  lemma {:induction false} InsertKeepsChain(orders: seq<Order>, p: seq<Timed>, q: seq<Timed>, n: nat, at: int, e: Event)
    requires ConnectedIn(orders, p, q, n)
    ensures ConnectedIn(orders, Insert(p, at, e), Insert(q, at, e), n)
    decreases n
  {
    if n > 0 {
      var m :| Swaps(orders, p, m) && ConnectedIn(orders, m, q, n - 1);
      var i :| SwapsAt(orders, p, m, i);
      InsertKeepsSwap(orders, p, m, i, at, e);
      InsertKeepsChain(orders, m, q, n - 1, at, e);
    }
  }

  lemma {:induction false} InsertKeeps(orders: seq<Order>, p: seq<Timed>, q: seq<Timed>, at: int, e: Event)
    requires Connected(orders, p, q)
    ensures Connected(orders, Insert(p, at, e), Insert(q, at, e))
  {
    var n: nat :| ConnectedIn(orders, p, q, n);
    InsertKeepsChain(orders, p, q, n, at, e);
  }

  lemma {:induction false} MergeKeeps(orders: seq<Order>, p: seq<Timed>, q: seq<Timed>, pushed: seq<Timed>)
    requires Connected(orders, p, q)
    ensures Connected(orders, Merge(p, pushed), Merge(q, pushed))
    decreases |pushed|
  {
    if pushed != [] {
      var t := pushed[0];
      InsertKeeps(orders, p, q, t.at, t.event);
      MergeKeeps(orders, Insert(p, t.at, t.event), Insert(q, t.at, t.event), pushed[1..]);
    }
  }

  /** Orders that keep what they trade and whether they have a limit keep every swap. */
  ghost predicate SameKinds(before: seq<Order>, after: seq<Order>) {
    && |before| <= |after|
    && forall i :: 0 <= i < |before| ==>
         after[i].instrument == before[i].instrument && after[i].limit.Some? == before[i].limit.Some?
  }

  lemma {:induction false} SameKindsKeep(before: seq<Order>, after: seq<Order>, p: seq<Timed>, q: seq<Timed>, n: nat)
    requires SameKinds(before, after) && ConnectedIn(before, p, q, n)
    ensures ConnectedIn(after, p, q, n)
    decreases n
  {
    hide SameKinds, Apart;
    if n > 0 {
      var m :| Swaps(before, p, m) && ConnectedIn(before, m, q, n - 1);
      var i :| SwapsAt(before, p, m, i);
      StillApart(before, after, p[i].event, p[i + 1].event);
      assert SwapsAt(after, p, m, i);
      assert Swaps(after, p, m);
      SameKindsKeep(before, after, m, q, n - 1);
    }
  }

  lemma StillApart(before: seq<Order>, after: seq<Order>, e: Event, f: Event)
    requires SameKinds(before, after) && Apart(before, e, f)
    ensures Apart(after, e, f)
  {
  }

  // ---- pushing in another order ----

  lemma {:induction false} InsertTwo(orders: seq<Order>, queue: seq<Timed>, x: Timed, y: Timed)
    requires x == y || x.at != y.at || Apart(orders, x.event, y.event)
    ensures Connected(orders, Insert(Insert(queue, x.at, x.event), y.at, y.event),
                      Insert(Insert(queue, y.at, y.event), x.at, x.event))
  {
    if x == y {
      Same(orders, Insert(Insert(queue, x.at, x.event), y.at, y.event));
    } else if x.at != y.at {
      InsertCommutes(queue, x.at, x.event, y.at, y.event);
      Same(orders, Insert(Insert(queue, x.at, x.event), y.at, y.event));
    } else {
      InsertNeighbours(orders, queue, x, y);
    }
  }

  lemma {:induction false} InsertNeighbours(orders: seq<Order>, queue: seq<Timed>, x: Timed, y: Timed)
    requires x.at == y.at && Apart(orders, x.event, y.event)
    ensures Swaps(orders, Insert(Insert(queue, x.at, x.event), y.at, y.event),
                  Insert(Insert(queue, y.at, y.event), x.at, x.event))
    ensures Connected(orders, Insert(Insert(queue, x.at, x.event), y.at, y.event),
                      Insert(Insert(queue, y.at, y.event), x.at, x.event))
    decreases |queue|
  {
    var a := Insert(Insert(queue, x.at, x.event), y.at, y.event);
    var b := Insert(Insert(queue, y.at, y.event), x.at, x.event);
    if queue == [] || x.at < queue[0].at {
      assert ([x] + queue)[1..] == queue && ([y] + queue)[1..] == queue;
      assert Insert(queue, y.at, y.event) == [y] + queue && Insert(queue, x.at, x.event) == [x] + queue;
      assert a == [x] + ([y] + queue) && b == [y] + ([x] + queue);
      assert SwapsAt(orders, a, b, 0);
      OneSwap(orders, a, b, 0);
    } else {
      var rest := queue[1..];
      InsertNeighbours(orders, rest, x, y);
      var a1, b1 := Insert(Insert(rest, x.at, x.event), y.at, y.event),
        Insert(Insert(rest, y.at, y.event), x.at, x.event);
      assert ([queue[0]] + Insert(rest, x.at, x.event))[1..] == Insert(rest, x.at, x.event);
      assert ([queue[0]] + Insert(rest, y.at, y.event))[1..] == Insert(rest, y.at, y.event);
      assert a == [queue[0]] + a1 && b == [queue[0]] + b1;
      var i :| SwapsAt(orders, a1, b1, i);
      assert SwapsAt(orders, a, b, i + 1);
      OneSwap(orders, a, b, i + 1);
    }
  }

  predicate FreeOf(orders: seq<Order>, x: Timed, y: Timed) {
    x == y || x.at != y.at || Apart(orders, x.event, y.event)
  }

  /** An event may be pushed before others it has nothing to do with. */
  lemma {:induction false} PushedEarlier(orders: seq<Order>, queue: seq<Timed>, u: seq<Timed>, y: Timed, w: seq<Timed>)
    requires forall x :: x in u ==> FreeOf(orders, x, y)
    ensures Connected(orders, Merge(queue, u + [y] + w), Merge(queue, [y] + u + w))
    decreases |u|
  {
    if u == [] {
      assert u + [y] + w == [y] + u + w;
      Same(orders, Merge(queue, [y] + u + w));
    } else {
      hide Merge, Connected, FreeOf;
      var n := |u| - 1;
      var v, x := u[..n], u[n];
      assert u == v + [x] && x in u;
      SwappedInside(orders, queue, v, x, y, w);
      assert u + [y] + w == v + ([x] + ([y] + w)) && v + [y] + ([x] + w) == v + ([y] + ([x] + w));
      PushedEarlier(orders, queue, v, y, [x] + w);
      assert [y] + v + ([x] + w) == [y] + u + w;
      Chain(orders, Merge(queue, u + [y] + w), Merge(queue, v + [y] + ([x] + w)), Merge(queue, [y] + u + w));
    }
  }

  lemma {:induction false} SwappedInside(orders: seq<Order>, queue: seq<Timed>, v: seq<Timed>, x: Timed, y: Timed,
                                         w: seq<Timed>)
    requires FreeOf(orders, x, y)
    ensures Connected(orders, Merge(queue, v + ([x] + ([y] + w))), Merge(queue, v + ([y] + ([x] + w))))
  {
    hide Connected, Merge;
    var z := Merge(queue, v);
    InsertTwo(orders, z, x, y);
    MergeParts(queue, v, [x] + ([y] + w));
    MergeParts(queue, v, [y] + ([x] + w));
    MergeThree(z, x, y, w);
    MergeThree(z, y, x, w);
    MergeKeeps(orders, Insert(Insert(z, x.at, x.event), y.at, y.event),
      Insert(Insert(z, y.at, y.event), x.at, x.event), w);
  }

  lemma {:induction false} MergeThree(queue: seq<Timed>, x: Timed, y: Timed, w: seq<Timed>)
    ensures Merge(queue, [x] + ([y] + w)) == Merge(Insert(Insert(queue, x.at, x.event), y.at, y.event), w)
  {
    assert ([x] + ([y] + w))[1..] == [y] + w && ([y] + w)[1..] == w;
  }

  ghost predicate AllFree(orders: seq<Order>, pushed: seq<Timed>) {
    forall x, y :: x in pushed && y in pushed ==> FreeOf(orders, x, y)
  }

  /** Events that have nothing to do with each other may be pushed in any order. */
  lemma {:induction false} PushedInAnyOrder(orders: seq<Order>, queue: seq<Timed>, a: seq<Timed>, b: seq<Timed>)
    requires multiset(a) == multiset(b) && AllFree(orders, a)
    ensures Connected(orders, Merge(queue, a), Merge(queue, b))
    decreases |b|
  {
    if b == [] {
      assert |multiset(a)| == |multiset(b)|;
      assert a == [];
      Same(orders, Merge(queue, a));
    } else {
      hide AllFree, FreeOf;
      var y := b[0];
      var j := Position(a, b);
      var u, w := a[..j], a[j + 1..];
      TakenOut(a, b, j);
      FreeRest(orders, a, j);
      PushedEarlier(orders, queue, u, y, w);
      var next := Insert(queue, y.at, y.event);
      PushedInAnyOrder(orders, next, u + w, b[1..]);
      assert ([y] + (u + w))[1..] == u + w && [y] + u + w == [y] + (u + w);
      assert Merge(queue, [y] + u + w) == Merge(next, u + w) && Merge(queue, b) == Merge(next, b[1..]);
      Chain(orders, Merge(queue, a), Merge(next, u + w), Merge(next, b[1..]));
    }
  }

  /** Where the head of the one is in the other. */
  ghost function Position(a: seq<Timed>, b: seq<Timed>): (j: nat)
    requires multiset(a) == multiset(b) && b != []
    ensures j < |a| && a[j] == b[0]
  {
    assert b[0] in multiset(a);
    var j :| 0 <= j < |a| && a[j] == b[0];
    j
  }

  lemma TakenOut(a: seq<Timed>, b: seq<Timed>, j: nat)
    requires multiset(a) == multiset(b) && b != [] && j < |a| && a[j] == b[0]
    ensures a == a[..j] + [b[0]] + a[j + 1..] && multiset(a[..j] + a[j + 1..]) == multiset(b[1..])
  {
    AllButOne(a, j);
    AllButOne(b, 0);
    assert b[..0] + b[1..] == b[1..];
  }

  lemma AllButOne<T>(s: seq<T>, j: nat)
    requires j < |s|
    ensures s == s[..j] + [s[j]] + s[j + 1..] && multiset(s[..j] + s[j + 1..]) == multiset(s) - multiset{s[j]}
  {
    assert s == s[..j] + [s[j]] + s[j + 1..];
  }

  lemma FreeRest(orders: seq<Order>, a: seq<Timed>, j: nat)
    requires AllFree(orders, a) && j < |a|
    ensures AllFree(orders, a[..j] + a[j + 1..]) && forall x :: x in a[..j] ==> FreeOf(orders, x, a[j])
  {
    hide FreeOf;
    forall x | x in a[..j] + a[j + 1..] ensures x in a { }
    assert a[j] in a;
  }
}
