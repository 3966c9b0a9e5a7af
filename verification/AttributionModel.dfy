/** Turning broker fill activities into local fills and settlement events, as the sequence of single-transaction
    writes one call makes. A crash leaves some prefix of them done. */
module AttributionModel {
  import opened Common

  datatype Side = Buy | Sell

  /** A broker activity; `None` where the broker left a field out. */
  datatype Activity = Activity(
    id: Option<nat>, order: nat, symbol: nat, side: Option<Side>, qty: Option<real>, price: Option<real>,
      at: Option<int>)

  datatype Valid = Valid(id: nat, qty: real, price: real, at: int)

  datatype Fill = Fill(intent: nat, order: nat, qty: real, price: real, at: int)

  datatype Status = Pending | Processing | Completed | RetryableFailed | TerminalFailed | IntegrityBlocked

  datatype Settlement = Settlement(fill: Fill, status: Status)

  datatype Hold = VerificationPending | Disputed

  datatype Store = Store(fills: map<nat, Fill>, settlements: map<nat, Settlement>, holds: map<nat, Hold>, latched: bool)

  /** What the call attributes for. */
  datatype Target = Target(intent: nat, order: nat, symbol: nat, side: Side)

  // ---- the accounting boundary ----

  /** Every field must be present and match before an activity becomes a ledger record. */
  function Admit(a: Activity, t: Target): Option<Valid> {
    if a.id.None? || a.symbol != t.symbol || a.side != Some(t.side) || a.qty.None? || a.qty.value <= 0.0
       || a.price.None? || a.price.value <= 0.0 || a.at.None?
    then None
    else Some(Valid(a.id.value, a.qty.value, a.price.value, a.at.value))
  }

  predicate Precedes(a: Valid, b: Valid) {
    a.at < b.at || (a.at == b.at && a.id <= b.id)
  }

  function Sorted(v: Valid, rest: seq<Valid>): seq<Valid> {
    if rest == [] || Precedes(v, rest[0]) then [v] + rest else [rest[0]] + Sorted(v, rest[1..])
  }

  /** The order's admitted activities, in time order. */
  function Validated(activities: seq<Activity>, t: Target): seq<Valid> {
    if activities == [] then []
    else
      var rest := Validated(activities[1..], t);
      var admitted := Admit(activities[0], t);
      if activities[0].order == t.order && admitted.Some? then Sorted(admitted.value, rest) else rest
  }

  lemma {:induction false} SortedMembers(v: Valid, rest: seq<Valid>)
    ensures forall x :: x in Sorted(v, rest) <==> x == v || x in rest
  {
    if rest != [] && !Precedes(v, rest[0]) {
      SortedMembers(v, rest[1..]);
      assert rest == [rest[0]] + rest[1..];
    }
  }

  /** Exactly the order's activities whose every field matches; nothing is invented and nothing that matches is
      dropped. */
  lemma {:induction false} ValidatedAre(activities: seq<Activity>, t: Target, v: Valid)
    ensures v in Validated(activities, t)
            <==> exists a :: a in activities && a.order == t.order && Admit(a, t) == Some(v)
  {
    if activities != [] {
      var rest := activities[1..];
      ValidatedAre(rest, t, v);
      assert activities == [activities[0]] + rest;
      if activities[0].order == t.order && Admit(activities[0], t).Some? {
        SortedMembers(Admit(activities[0], t).value, Validated(rest, t));
      }
      if v in Validated(rest, t) {
        var a :| a in rest && a.order == t.order && Admit(a, t) == Some(v);
        assert a in activities;
      }
      if a :| a in activities && a.order == t.order && Admit(a, t) == Some(v) && a != activities[0] {
        assert a in rest;
      }
    }
  }

  function TotalQty(fills: seq<Valid>): real {
    if fills == [] then 0.0 else TotalQty(fills[..|fills| - 1]) + fills[|fills| - 1].qty
  }

  function Notional(fills: seq<Valid>): real {
    if fills == [] then 0.0 else Notional(fills[..|fills| - 1]) + fills[|fills| - 1].qty * fills[|fills| - 1].price
  }

  /** The attributed quantity, and the average price of the very same activities. */
  datatype Attributed = Attributed(qty: real, avgPrice: Option<real>)

  function AttributedOf(fills: seq<Valid>): Attributed {
    var total := TotalQty(fills);
    Attributed(total, if total > 0.0 then Some(Notional(fills) / total) else None)
  }

  // ---- the same, said of the activities field by field ----

  /** The activity is this order's, and its identity, symbol, side, quantity, price and time are all present and what
      the trade expects. */
  predicate Belongs(a: Activity, t: Target) {
    && a.order == t.order && a.symbol == t.symbol && a.side == Some(t.side)
    && a.id.Some? && a.at.Some?
    && a.qty.Some? && a.qty.value > 0.0
    && a.price.Some? && a.price.value > 0.0
  }

  /** What is validated is what some activity of the order reports, every field of which matches. */
  lemma {:induction false} ValidatedFieldByField(activities: seq<Activity>, t: Target, v: Valid)
    ensures v in Validated(activities, t)
            <==> exists a :: && a in activities && a.order == t.order && a.id == Some(v.id) && a.symbol == t.symbol
                             && a.side == Some(t.side) && a.qty == Some(v.qty) && v.qty > 0.0
                             && a.price == Some(v.price) && v.price > 0.0 && a.at == Some(v.at)
  {
    ValidatedAre(activities, t, v);
  }

  function QtyOf(activities: seq<Activity>, t: Target): real {
    if activities == [] then 0.0
    else (if Belongs(activities[0], t) then activities[0].qty.value else 0.0) + QtyOf(activities[1..], t)
  }

  function PaidFor(activities: seq<Activity>, t: Target): real {
    if activities == [] then 0.0
    else (if Belongs(activities[0], t) then activities[0].qty.value * activities[0].price.value else 0.0)
         + PaidFor(activities[1..], t)
  }

  lemma {:induction false} TotalsSplit(first: seq<Valid>, rest: seq<Valid>)
    ensures TotalQty(first + rest) == TotalQty(first) + TotalQty(rest)
    ensures Notional(first + rest) == Notional(first) + Notional(rest)
  {
    if rest == [] {
      assert first + rest == first;
    } else {
      var n := |rest| - 1;
      assert (first + rest)[..|first + rest| - 1] == first + rest[..n];
      TotalsSplit(first, rest[..n]);
    }
  }

  lemma {:induction false} SortedTotals(v: Valid, rest: seq<Valid>)
    ensures TotalQty(Sorted(v, rest)) == v.qty + TotalQty(rest)
    ensures Notional(Sorted(v, rest)) == v.qty * v.price + Notional(rest)
  {
    assert [v][..0] == [];
    assert TotalQty([v]) == v.qty && Notional([v]) == v.qty * v.price;
    if rest == [] || Precedes(v, rest[0]) {
      TotalsSplit([v], rest);
    } else {
      SortedTotals(v, rest[1..]);
      assert rest == [rest[0]] + rest[1..];
      TotalsSplit([rest[0]], rest[1..]);
      TotalsSplit([rest[0]], Sorted(v, rest[1..]));
    }
  }

  /** The attributed quantity counts every such activity once, and the average price is what those very activities paid
      per unit; without any there is none. */
  lemma {:induction false} AttributedIs(activities: seq<Activity>, t: Target)
    ensures TotalQty(Validated(activities, t)) == QtyOf(activities, t) >= 0.0
    ensures Notional(Validated(activities, t)) == PaidFor(activities, t)
    ensures var a := AttributedOf(Validated(activities, t));
            && a.qty == QtyOf(activities, t)
            && (a.avgPrice.None? <==> forall x :: x in activities ==> !Belongs(x, t))
            && (a.avgPrice.Some? ==> a.avgPrice.value == PaidFor(activities, t) / a.qty)
  {
    TotalsAre(activities, t);
    NoneBelongs(activities, t);
  }

  lemma {:induction false} TotalsAre(activities: seq<Activity>, t: Target)
    ensures TotalQty(Validated(activities, t)) == QtyOf(activities, t)
    ensures Notional(Validated(activities, t)) == PaidFor(activities, t)
  {
    hide Admit, Belongs, Sorted, TotalQty, Notional;
    if activities == [] {
      NothingAttributed(t);
    } else {
      TotalsAre(activities[1..], t);
      AdmitsWhatBelongs(activities[0], t);
      if Belongs(activities[0], t) {
        SortedTotals(Admit(activities[0], t).value, Validated(activities[1..], t));
      }
    }
  }

  lemma {:induction false} NothingAttributed(t: Target)
    ensures TotalQty(Validated([], t)) == 0.0 && Notional(Validated([], t)) == 0.0
  {
  }

  lemma AdmitsWhatBelongs(a: Activity, t: Target)
    ensures a.order == t.order && Admit(a, t).Some? <==> Belongs(a, t)
    ensures Belongs(a, t) ==> Admit(a, t) == Some(Valid(a.id.value, a.qty.value, a.price.value, a.at.value))
  {
  }

  lemma {:induction false} NoneBelongs(activities: seq<Activity>, t: Target)
    ensures QtyOf(activities, t) >= 0.0
    ensures QtyOf(activities, t) == 0.0 <==> forall x :: x in activities ==> !Belongs(x, t)
  {
    if activities != [] {
      NoneBelongs(activities[1..], t);
      assert activities == [activities[0]] + activities[1..];
      assert forall x :: x in activities <==> x == activities[0] || x in activities[1..];
    }
  }

  /** Validated activities come oldest first, ties by identity. */
  lemma {:induction false} ValidatedInOrder(activities: seq<Activity>, t: Target)
    ensures InTimeOrder(Validated(activities, t))
  {
    if activities != [] {
      ValidatedInOrder(activities[1..], t);
      var admitted := Admit(activities[0], t);
      if activities[0].order == t.order && admitted.Some? {
        SortedInOrder(admitted.value, Validated(activities[1..], t));
      }
    }
  }

  predicate InTimeOrder(fills: seq<Valid>) {
    forall i, j :: 0 <= i < j < |fills| ==>
      fills[i].at < fills[j].at || (fills[i].at == fills[j].at && fills[i].id <= fills[j].id)
  }

  lemma {:induction false} SortedInOrder(v: Valid, rest: seq<Valid>)
    requires InTimeOrder(rest)
    ensures InTimeOrder(Sorted(v, rest))
  {
    if rest != [] && !Precedes(v, rest[0]) {
      SortedInOrder(v, rest[1..]);
      SortedMembers(v, rest[1..]);
      var more := Sorted(v, rest[1..]);
      forall j | 0 <= j < |more| ensures Precedes(rest[0], more[j]) {
        assert more[j] in more;
        if more[j] != v {
          var k :| 0 <= k < |rest[1..]| && rest[1..][k] == more[j];
          assert rest[1..][k] == rest[k + 1];
        }
      }
    } else if rest != [] {
      forall j | 0 <= j < |rest| ensures Precedes(v, rest[j]) {
        assert j > 0 ==> Precedes(rest[0], rest[j]);
      }
    }
  }

  // ---- writes ----

  /** One transaction each. `Block` is a claim that only takes pending or retryable events. */
  datatype Write =
    | CreateFill(id: nat, fill: Fill)
    | CreateSettlement(id: nat, fill: Fill)
    | CreateHold(order: nat, hold: Hold)
    | UpdateHold(order: nat, hold: Hold)
    | DeleteHold(order: nat)
    | Block(id: nat)
    | Latch

  function Apply(s: Store, w: Write): Store {
    match w
    case CreateFill(id, fill) => if id in s.fills then s else s.(fills := s.fills[id := fill])
    case CreateSettlement(id, fill) =>
      if id in s.settlements then s else s.(settlements := s.settlements[id := Settlement(fill, Pending)])
    case CreateHold(order, hold) => if order in s.holds then s else s.(holds := s.holds[order := hold])
    case UpdateHold(order, hold) => if order in s.holds then s.(holds := s.holds[order := hold]) else s
    case DeleteHold(order) => s.(holds := s.holds - {order})
    case Block(id) =>
      if id in s.settlements && (s.settlements[id].status == Pending || s.settlements[id].status == RetryableFailed)
      then s.(settlements := s.settlements[id := s.settlements[id].(status := IntegrityBlocked)]) else s
    case Latch => s.(latched := true)
  }

  function ApplyAll(s: Store, writes: seq<Write>): Store
    decreases |writes|
  {
    if writes == [] then s else ApplyAll(Apply(s, writes[0]), writes[1..])
  }

  lemma {:induction false} ApplyParts(s: Store, a: seq<Write>, b: seq<Write>)
    ensures ApplyAll(s, a + b) == ApplyAll(ApplyAll(s, a), b)
    decreases |a|
  {
    if a == [] {
      assert a + b == b;
    } else {
      assert (a + b)[1..] == a[1..] + b;
      ApplyParts(Apply(s, a[0]), a[1..], b);
    }
  }

  lemma {:induction false} ApplyTwo(s: Store, a: Write, b: Write)
    ensures ApplyAll(s, [a, b]) == Apply(Apply(s, a), b)
  {
    assert [a, b][1..] == [b] && [b][1..] == [];
    assert ApplyAll(Apply(s, a), [b]) == ApplyAll(Apply(Apply(s, a), b), [b][1..]);
  }

  // ---- one call's writes ----

  /** `verify` asks for the order-level check; `order` is the broker's filled quantity, or `None` when it cannot be
      read. */
  datatype Call = Call(target: Target, activities: seq<Activity>, verify: bool, order: Option<real>)

  function FillsOf(c: Call): seq<Valid> { Validated(c.activities, c.target) }

  predicate Disputes(c: Call) {
    c.verify && c.order.Some? && TotalQty(FillsOf(c)) > c.order.value
  }

  predicate CannotVerify(c: Call) {
    c.verify && c.order.None?
  }

  /** The check was made and found nothing wrong. */
  predicate Verifies(c: Call) {
    c.verify && c.order.Some? && TotalQty(FillsOf(c)) <= c.order.value
  }

  function Record(t: Target, v: Valid): Fill {
    Fill(t.intent, t.order, v.qty, v.price, v.at)
  }

  function RecordWrites(t: Target, fills: seq<Valid>): seq<Write> {
    if fills == [] then []
    else
      var v := fills[0];
      [CreateFill(v.id, Record(t, v)), CreateSettlement(v.id, Record(t, v))] + RecordWrites(t, fills[1..])
  }

  function Blocks(ids: seq<nat>): seq<Write> {
    seq(|ids|, i requires 0 <= i < |ids| => Block(ids[i]))
  }

  /** `rows` lists the settlement events that exist for the intent when the dispute is found. */
  function HoldWrites(s: Store, c: Call, rows: seq<nat>): seq<Write> {
    var order := c.target.order;
    if Disputes(c) then
      Blocks(rows) + [CreateHold(order, Disputed)] + (if order in s.holds then [UpdateHold(order, Disputed)] else [])
        + [Latch]
    else if CannotVerify(c) then (if order in s.holds then [] else [CreateHold(order, VerificationPending)])
    else if Verifies(c) && order in s.holds && s.holds[order] == VerificationPending then [DeleteHold(order)]
    else []
  }

  /** The hold is settled before any record is written. */
  function Plan(s: Store, c: Call, rows: seq<nat>): seq<Write> {
    HoldWrites(s, c, rows) + RecordWrites(c.target, FillsOf(c))
  }

  /** What a listing of the intent's settlement rows may return: all of them, in some order. */
  ghost predicate ListsRows(s: Store, c: Call, rows: seq<nat>) {
    forall id :: id in rows <==> id in s.settlements && s.settlements[id].fill.intent == c.target.intent
  }

  /** The store after the first `n` writes of the call. */
  function Crashed(s: Store, c: Call, rows: seq<nat>, n: nat): Store
    requires n <= |Plan(s, c, rows)|
  {
    ApplyAll(s, Plan(s, c, rows)[..n])
  }

  function Finished(s: Store, c: Call, rows: seq<nat>): Store {
    ApplyAll(s, Plan(s, c, rows))
  }

  // ---- exactly once ----

  /** Every settlement event has its fill, and they say the same thing. */
  ghost predicate Backed(s: Store) {
    forall id :: id in s.settlements ==> id in s.fills && s.settlements[id].fill == s.fills[id]
  }

  /** Nothing recorded is lost or rewritten; only statuses move. */
  ghost predicate Kept(a: Store, b: Store) {
    && (forall id :: id in a.fills ==> id in b.fills && b.fills[id] == a.fills[id])
    && (forall id :: id in a.settlements ==> id in b.settlements && b.settlements[id].fill == a.settlements[id].fill)
  }

  lemma {:induction false} WritesKeep(s: Store, writes: seq<Write>)
    ensures Kept(s, ApplyAll(s, writes))
    decreases |writes|
  {
    hide Apply, Kept;
    OneWriteKeeps(s, s, s, Latch);
    if writes != [] {
      WritesKeep(Apply(s, writes[0]), writes[1..]);
      OneWriteKeeps(s, Apply(s, writes[0]), ApplyAll(s, writes), writes[0]);
    }
  }

  lemma OneWriteKeeps(s: Store, next: Store, later: Store, w: Write)
    ensures Kept(s, s) && Kept(s, Apply(s, w))
    ensures next == Apply(s, w) && Kept(next, later) ==> Kept(s, later)
  {
  }

  /** The report does not contradict itself or what the store holds. */
  ghost predicate Consistent(s: Store, t: Target, fills: seq<Valid>) {
    && (forall i, j :: 0 <= i < |fills| && 0 <= j < |fills| && fills[i].id == fills[j].id ==> fills[i] == fills[j])
    && (forall i :: 0 <= i < |fills| && fills[i].id in s.fills ==> s.fills[fills[i].id] == Record(t, fills[i]))
  }

  predicate HoldWrite(w: Write) {
    w.CreateHold? || w.UpdateHold? || w.DeleteHold? || w.Block? || w.Latch?
  }

  lemma HoldWritesAre(s: Store, c: Call, rows: seq<nat>)
    ensures forall w :: w in HoldWrites(s, c, rows) ==> HoldWrite(w)
  {
  }

  lemma {:induction false} HoldPart(s: Store, writes: seq<Write>)
    requires forall w :: w in writes ==> HoldWrite(w)
    ensures var r := ApplyAll(s, writes);
            r.fills == s.fills && r.settlements.Keys == s.settlements.Keys
    ensures Backed(s) ==> Backed(ApplyAll(s, writes))
    decreases |writes|
  {
    if writes != [] {
      assert writes[0] in writes;
      HoldPart(Apply(s, writes[0]), writes[1..]);
    }
  }

  /** Writing fills one by one, fill first: at every point each event has its fill. */
  lemma {:induction false} RecordsBacked(s: Store, t: Target, fills: seq<Valid>, n: nat)
    requires Backed(s) && Consistent(s, t, fills) && n <= |RecordWrites(t, fills)|
    ensures Backed(ApplyAll(s, RecordWrites(t, fills)[..n]))
    decreases |fills|
  {
    if fills == [] || n == 0 {
      assert RecordWrites(t, fills)[..n] == [];
    } else {
      var v := fills[0];
      var first, second := CreateFill(v.id, Record(t, v)), CreateSettlement(v.id, Record(t, v));
      var all := RecordWrites(t, fills);
      assert all[0] == first && all[1] == second && all[2..] == RecordWrites(t, fills[1..]);
      var one := Apply(s, first);
      var two := Apply(one, second);
      if n == 1 {
        assert all[..1] == [first];
        assert ApplyAll(s, [first]) == ApplyAll(one, [first][1..]);
      } else {
        assert all[..n] == [first, second] + all[2..][..n - 2];
        ApplyParts(s, [first, second], all[2..][..n - 2]);
        ApplyTwo(s, first, second);
        StillConsistent(s, two, t, fills);
        RecordsBacked(two, t, fills[1..], n - 2);
      }
    }
  }

  lemma StillConsistent(s: Store, two: Store, t: Target, fills: seq<Valid>)
    requires fills != [] && Consistent(s, t, fills)
    requires two == Apply(Apply(s, CreateFill(fills[0].id, Record(t, fills[0]))),
             CreateSettlement(fills[0].id, Record(t, fills[0])))
    ensures Consistent(two, t, fills[1..]) && Consistent(two, t, fills)
    ensures fills[0].id in two.fills && two.fills[fills[0].id] == Record(t, fills[0]) && fills[0].id in two.settlements
    ensures Kept(s, two)
  {
    forall i | 0 <= i < |fills| && fills[i].id in two.fills ensures two.fills[fills[i].id] == Record(t, fills[i]) {
      if fills[i].id == fills[0].id { assert fills[i] == fills[0]; }
    }
    assert forall i :: 0 <= i < |fills| - 1 ==> fills[1..][i] == fills[i + 1];
  }

  /** Nothing but these activities was added, and each of them is there. */
  ghost predicate Recorded(s: Store, r: Store, t: Target, fills: seq<Valid>) {
    && Backed(r) && Kept(s, r) && r.holds == s.holds
    && (forall v :: v in fills ==> v.id in r.fills && r.fills[v.id] == Record(t, v) && v.id in r.settlements)
    && (forall id :: id in r.fills ==> id in s.fills || exists v :: v in fills && v.id == id)
    && (forall id :: id in r.settlements ==> id in s.settlements || exists v :: v in fills && v.id == id)
  }

  /** Writing them all leaves a fill and an event for each. */
  lemma {:induction false} RecordsComplete(s: Store, t: Target, fills: seq<Valid>)
    requires Backed(s) && Consistent(s, t, fills)
    ensures Recorded(s, ApplyAll(s, RecordWrites(t, fills)), t, fills)
    decreases |fills|
  {
    if fills != [] {
      var v := fills[0];
      var first, second := CreateFill(v.id, Record(t, v)), CreateSettlement(v.id, Record(t, v));
      var two := Apply(Apply(s, first), second);
      StillConsistent(s, two, t, fills);
      assert Backed(two);
      assert two.fills.Keys == s.fills.Keys + {v.id} && two.settlements.Keys == s.settlements.Keys + {v.id};
      assert two.holds == s.holds;
      RecordsComplete(two, t, fills[1..]);
      var rest := RecordWrites(t, fills[1..]);
      ApplyParts(s, [first, second], rest);
      ApplyTwo(s, first, second);
      OneMoreRecorded(s, two, ApplyAll(two, rest), t, fills);
    }
  }

  lemma OneMoreRecorded(s: Store, two: Store, r: Store, t: Target, fills: seq<Valid>)
    requires fills != [] && Kept(s, two) && two.holds == s.holds && Recorded(two, r, t, fills[1..])
    requires var id := fills[0].id;
             && two.fills.Keys == s.fills.Keys + {id} && two.settlements.Keys == s.settlements.Keys + {id}
             && two.fills[id] == Record(t, fills[0])
    ensures Recorded(s, r, t, fills)
  {
    assert fills == [fills[0]] + fills[1..];
    assert forall v :: v in fills <==> v == fills[0] || v in fills[1..];
  }

  /** Every crash point of every call keeps each event backed by its fill. */
  lemma CrashKeepsBacked(s: Store, c: Call, rows: seq<nat>, n: nat)
    requires Backed(s) && Consistent(s, c.target, FillsOf(c)) && n <= |Plan(s, c, rows)|
    ensures Backed(Crashed(s, c, rows, n)) && Kept(s, Crashed(s, c, rows, n))
  {
    var holds, records := HoldWrites(s, c, rows), RecordWrites(c.target, FillsOf(c));
    HoldWritesAre(s, c, rows);
    WritesKeep(s, Plan(s, c, rows)[..n]);
    if n <= |holds| {
      assert Plan(s, c, rows)[..n] == holds[..n];
      HoldPart(s, holds[..n]);
    } else {
      assert Plan(s, c, rows)[..n] == holds + records[..n - |holds|];
      ApplyParts(s, holds, records[..n - |holds|]);
      HoldPart(s, holds);
      RecordsBacked(ApplyAll(s, holds), c.target, FillsOf(c), n - |holds|);
    }
  }

  /** Whatever came before, one completed call leaves exactly one fill and one settlement event per validated
      activity, and creates nothing else. */
  lemma CompletedCallRecordsEach(s: Store, c: Call, rows: seq<nat>)
    requires Backed(s) && Consistent(s, c.target, FillsOf(c))
    ensures var r := Finished(s, c, rows);
            && Backed(r) && Kept(s, r)
            && (forall v :: v in FillsOf(c) ==>
                  && v.id in r.fills && r.fills[v.id] == Record(c.target, v)
                  && v.id in r.settlements && r.settlements[v.id].fill == Record(c.target, v))
            && (forall id :: id in r.fills && id !in s.fills ==> exists v :: v in FillsOf(c) && v.id == id)
            && (forall id :: id in r.settlements && id !in s.settlements ==> exists v :: v in FillsOf(c) && v.id == id)
  {
    var holds, records := HoldWrites(s, c, rows), RecordWrites(c.target, FillsOf(c));
    HoldWritesAre(s, c, rows);
    HoldPart(s, holds);
    WritesKeep(s, holds);
    ApplyParts(s, holds, records);
    RecordsComplete(ApplyAll(s, holds), c.target, FillsOf(c));
  }

  // ---- one broker, one store ----

  /** The broker's own record, fixed for good: each activity by id, and the intent that placed each order. */
  datatype Broker = Broker(activity: nat -> Activity, owner: nat -> nat)

  /** The call is told the broker's record, whichever part of it, and attributes for the order's own intent. */
  ghost predicate Reports(b: Broker, c: Call) {
    && (forall a :: a in c.activities && a.id.Some? ==> b.activity(a.id.value) == a)
    && b.owner(c.target.order) == c.target.intent
  }

  function FillOn(b: Broker, id: nat): Fill {
    var a := b.activity(id);
    Fill(b.owner(a.order), a.order, a.qty.GetOr(0.0), a.price.GetOr(0.0), a.at.GetOr(0))
  }

  /** Every local fill says what the broker's record says. */
  ghost predicate Faithful(b: Broker, s: Store) {
    forall id :: id in s.fills ==> s.fills[id] == FillOn(b, id)
  }

  lemma ReportedFills(b: Broker, c: Call, v: Valid)
    requires Reports(b, c) && v in FillsOf(c)
    ensures Record(c.target, v) == FillOn(b, v.id) && Admit(b.activity(v.id), c.target) == Some(v)
  {
    ValidatedAre(c.activities, c.target, v);
  }

  /** Agreement with the store is no assumption: it follows from there being one record. */
  lemma ReportIsConsistent(b: Broker, s: Store, c: Call)
    requires Faithful(b, s) && Reports(b, c)
    ensures Consistent(s, c.target, FillsOf(c))
  {
    hide FillOn, Record, Reports;
    var fills := FillsOf(c);
    forall i | 0 <= i < |fills| ensures Record(c.target, fills[i]) == FillOn(b, fills[i].id)
                                      && Admit(b.activity(fills[i].id), c.target) == Some(fills[i]) {
      ReportedFills(b, c, fills[i]);
    }
  }

  lemma {:induction false} RecordsAreReported(b: Broker, t: Target, fills: seq<Valid>)
    requires forall v :: v in fills ==> Record(t, v) == FillOn(b, v.id)
    ensures forall w :: w in RecordWrites(t, fills) && w.CreateFill? ==> w.fill == FillOn(b, w.id)
  {
    hide FillOn, Record;
    if fills != [] {
      assert fills[0] in fills;
      RecordsAreReported(b, t, fills[1..]);
    }
  }

  lemma {:induction false} ReportedWritesKeepFaith(b: Broker, s: Store, writes: seq<Write>)
    requires Faithful(b, s) && forall w :: w in writes && w.CreateFill? ==> w.fill == FillOn(b, w.id)
    ensures Faithful(b, ApplyAll(s, writes))
    decreases |writes|
  {
    hide FillOn;
    if writes != [] {
      assert writes[0] in writes;
      ReportedWritesKeepFaith(b, Apply(s, writes[0]), writes[1..]);
    }
  }

  /** Every crash point of every call leaves the store saying what the broker's record says. */
  lemma CrashKeepsFaith(b: Broker, s: Store, c: Call, rows: seq<nat>, n: nat)
    requires Faithful(b, s) && Reports(b, c) && n <= |Plan(s, c, rows)|
    ensures Faithful(b, Crashed(s, c, rows, n))
  {
    hide FillOn, Faithful, Reports, HoldWrites, RecordWrites;
    HoldWritesAre(s, c, rows);
    forall v | v in FillsOf(c) ensures Record(c.target, v) == FillOn(b, v.id) { ReportedFills(b, c, v); }
    RecordsAreReported(b, c.target, FillsOf(c));
    var plan := Plan(s, c, rows);
    forall w | w in plan[..n] && w.CreateFill? ensures w.fill == FillOn(b, w.id) { assert w in plan; }
    ReportedWritesKeepFaith(b, s, plan[..n]);
  }

  // ---- holds ----

  predicate Doubtful(c: Call) { Disputes(c) || CannotVerify(c) }

  /** An event may be projected only while pending or retryable and with no hold on its order. */
  predicate Projectable(s: Store, id: nat) {
    && id in s.settlements
    && (s.settlements[id].status == Pending || s.settlements[id].status == RetryableFailed)
    && s.settlements[id].fill.order !in s.holds
  }

  /** A hold in force stays in force across any writes but a deletion, and never softens. */
  lemma {:induction false} HoldsPersist(s: Store, writes: seq<Write>, order: nat)
    requires order in s.holds
    requires forall w :: w in writes ==> w != DeleteHold(order)
    requires forall w :: w in writes && w.UpdateHold? ==> w.hold == Disputed
    ensures var r := ApplyAll(s, writes);
            order in r.holds && (s.holds[order] == Disputed ==> r.holds[order] == Disputed)
    decreases |writes|
  {
    if writes != [] {
      assert writes[0] in writes && forall w :: w in writes[1..] ==> w in writes;
      HoldsPersist(Apply(s, writes[0]), writes[1..], order);
    }
  }

  lemma {:induction false} RecordWritesAre(t: Target, fills: seq<Valid>)
    ensures forall w :: w in RecordWrites(t, fills) ==> w.CreateFill? || w.CreateSettlement?
  {
    if fills != [] { RecordWritesAre(t, fills[1..]); }
  }

  lemma PlanDeletes(s: Store, c: Call, rows: seq<nat>, order: nat)
    ensures forall w :: w in Plan(s, c, rows) && w.UpdateHold? ==> w.hold == Disputed
    ensures DeleteHold(order) in Plan(s, c, rows) ==>
              Verifies(c) && order == c.target.order && order in s.holds && s.holds[order] == VerificationPending
  {
    RecordWritesAre(c.target, FillsOf(c));
  }

  /** At every crash point of a doubtful call, an event it has newly written is already behind its order's hold. */
  lemma HoldComesFirst(s: Store, c: Call, rows: seq<nat>, n: nat, id: nat)
    requires Doubtful(c) && n <= |Plan(s, c, rows)|
    requires id !in s.settlements && id in Crashed(s, c, rows, n).settlements
    ensures c.target.order in Crashed(s, c, rows, n).holds
            && Crashed(s, c, rows, n).settlements[id].fill.order == c.target.order
    ensures Disputes(c) ==> Crashed(s, c, rows, n).holds[c.target.order] == Disputed
  {
    var holds, records := HoldWrites(s, c, rows), RecordWrites(c.target, FillsOf(c));
    HoldWritesAre(s, c, rows);
    if n <= |holds| {
      assert Plan(s, c, rows)[..n] == holds[..n];
      HoldPart(s, holds[..n]);
      assert false;
    } else {
      var rest := records[..n - |holds|];
      assert (holds + records)[..n] == holds + rest;
      ApplyParts(s, holds, rest);
      HoldPart(s, holds);
      DoubtIsHeld(s, c, rows);
      RecordWritesAre(c.target, FillsOf(c));
      assert forall w :: w in rest ==> w in records;
      HoldsPersist(ApplyAll(s, holds), rest, c.target.order);
      NewRecordsAreOurs(ApplyAll(s, holds), c.target, FillsOf(c), n - |holds|, id);
    }
  }

  /** After a doubtful call's hold writes the order is held; after a dispute, disputed. */
  lemma {:induction false} DoubtIsHeld(s: Store, c: Call, rows: seq<nat>)
    requires Doubtful(c)
    ensures var r := ApplyAll(s, HoldWrites(s, c, rows));
            c.target.order in r.holds && (Disputes(c) ==> r.holds[c.target.order] == Disputed && r.latched)
  {
    var order := c.target.order;
    if Disputes(c) {
      var create := [CreateHold(order, Disputed)];
      var update := if order in s.holds then [UpdateHold(order, Disputed)] else [];
      assert HoldWrites(s, c, rows) == Blocks(rows) + (create + (update + [Latch]));
      ApplyParts(s, Blocks(rows), create + (update + [Latch]));
      var blocked := ApplyAll(s, Blocks(rows));
      BlocksKeepHolds(s, Blocks(rows));
      ApplyParts(blocked, create, update + [Latch]);
      assert create[1..] == [] && update != [] ==> update[1..] == [];
      ApplyParts(Apply(blocked, create[0]), update, [Latch]);
      var latch: seq<Write> := [Latch];
      assert latch[1..] == [];
    } else if order !in s.holds {
      assert [CreateHold(order, VerificationPending)][1..] == [];
    }
  }

  lemma {:induction false} BlocksKeepHolds(s: Store, writes: seq<Write>)
    requires forall w :: w in writes ==> w.Block?
    ensures ApplyAll(s, writes).holds == s.holds
    decreases |writes|
  {
    if writes != [] {
      assert writes[0] in writes;
      BlocksKeepHolds(Apply(s, writes[0]), writes[1..]);
    }
  }

  lemma {:induction false} NewRecordsAreOurs(s: Store, t: Target, fills: seq<Valid>, n: nat, id: nat)
    requires n <= |RecordWrites(t, fills)|
    requires id in ApplyAll(s, RecordWrites(t, fills)[..n]).settlements
    requires id in s.settlements ==> s.settlements[id].fill.order == t.order
    ensures ApplyAll(s, RecordWrites(t, fills)[..n]).settlements[id].fill.order == t.order
    decreases |fills|
  {
    var all := RecordWrites(t, fills);
    if fills != [] && n > 0 {
      var v := fills[0];
      var first, second := CreateFill(v.id, Record(t, v)), CreateSettlement(v.id, Record(t, v));
      assert all[0] == first && all[1] == second && all[2..] == RecordWrites(t, fills[1..]);
      if n == 1 {
        assert all[..1] == [first];
        assert ApplyAll(s, [first]) == ApplyAll(Apply(s, first), [first][1..]);
      } else {
        assert all[..n] == [first, second] + all[2..][..n - 2];
        ApplyParts(s, [first, second], all[2..][..n - 2]);
        ApplyTwo(s, first, second);
        NewRecordsAreOurs(Apply(Apply(s, first), second), t, fills[1..], n - 2, id);
      }
    }
  }

  /** A completed dispute quarantines every pending event the intent already had. */
  lemma {:induction false} BlockedAll(s: Store, ids: seq<nat>, id: nat)
    requires id in ids || id !in s.settlements
             || (s.settlements[id].status != Pending && s.settlements[id].status != RetryableFailed)
    ensures var r := ApplyAll(s, Blocks(ids)); id in r.settlements ==>
            r.settlements[id].status != Pending && r.settlements[id].status != RetryableFailed
    decreases |ids|
  {
    if ids != [] {
      assert Blocks(ids)[0] == Block(ids[0]) && Blocks(ids)[1..] == Blocks(ids[1..]);
      BlockedAll(Apply(s, Block(ids[0])), ids[1..], id);
    }
  }

  // ---- what a completed call leaves ----

  lemma {:induction false} RecordsKeep(s: Store, writes: seq<Write>)
    requires forall w :: w in writes ==> w.CreateFill? || w.CreateSettlement?
    ensures var r := ApplyAll(s, writes);
            && r.holds == s.holds && r.latched == s.latched
            && forall id :: id in s.settlements ==> id in r.settlements && r.settlements[id] == s.settlements[id]
    decreases |writes|
  {
    if writes != [] {
      assert writes[0] in writes;
      RecordsKeep(Apply(s, writes[0]), writes[1..]);
    }
  }

  /** New settlement events are pending. */
  lemma {:induction false} NewRecordsPend(s: Store, writes: seq<Write>, id: nat)
    requires forall w :: w in writes ==> w.CreateFill? || w.CreateSettlement?
    requires id in ApplyAll(s, writes).settlements
    requires id in s.settlements ==> s.settlements[id].status == Pending
    ensures ApplyAll(s, writes).settlements[id].status == Pending
    decreases |writes|
  {
    if writes != [] {
      assert writes[0] in writes;
      NewRecordsPend(Apply(s, writes[0]), writes[1..], id);
    }
  }

  /** Quarantine takes exactly the listed pending and retryable events. */
  lemma {:induction false} BlocksAre(s: Store, ids: seq<nat>)
    ensures var r := ApplyAll(s, Blocks(ids));
            && r.holds == s.holds && r.latched == s.latched && r.settlements.Keys == s.settlements.Keys
            && forall id :: id in s.settlements ==>
                 r.settlements[id] == (if id in ids && (s.settlements[id].status == Pending
                                                        || s.settlements[id].status == RetryableFailed)
                                       then s.settlements[id].(status := IntegrityBlocked) else s.settlements[id])
    decreases |ids|
  {
    if ids != [] {
      assert Blocks(ids)[0] == Block(ids[0]) && Blocks(ids)[1..] == Blocks(ids[1..]);
      BlocksAre(Apply(s, Block(ids[0])), ids[1..]);
      assert ids == [ids[0]] + ids[1..];
    }
  }

  /** Every matching activity is in both records after a completed call. */
  lemma CompletedCallHasEach(s: Store, c: Call, rows: seq<nat>, a: Activity)
    requires a in c.activities && Belongs(a, c.target)
    ensures a.id.value in Finished(s, c, rows).fills && a.id.value in Finished(s, c, rows).settlements
  {
    hide HoldWrites, RecordWrites, ApplyAll;
    var v := Valid(a.id.value, a.qty.value, a.price.value, a.at.value);
    ValidatedFieldByField(c.activities, c.target, v);
    ApplyParts(s, HoldWrites(s, c, rows), RecordWrites(c.target, FillsOf(c)));
    RecordsHaveEach(ApplyAll(s, HoldWrites(s, c, rows)), c.target, FillsOf(c), v);
  }

  lemma {:induction false} RecordsHaveEach(s: Store, t: Target, fills: seq<Valid>, v: Valid)
    requires v in fills
    ensures var r := ApplyAll(s, RecordWrites(t, fills)); v.id in r.fills && v.id in r.settlements
    decreases |fills|
  {
    var x := fills[0];
    var two: seq<Write> := [CreateFill(x.id, Record(t, x)), CreateSettlement(x.id, Record(t, x))];
    var rest := RecordWrites(t, fills[1..]);
    assert RecordWrites(t, fills) == two + rest;
    ApplyParts(s, two, rest);
    ApplyTwo(s, two[0], two[1]);
    WritesKeep(ApplyAll(s, two), rest);
    assert fills == [x] + fills[1..];
    if v != x { RecordsHaveEach(ApplyAll(s, two), t, fills[1..], v); }
  }

  /** The order's hold and the latch after a completed call: an excess of attributed over filled quantity disputes the
      order and latches; an unreadable order is held unless it is already; a check that finds no excess lifts a
      pending hold and nothing else; no other order's hold changes. */
  ghost predicate HoldsAfter(s: Store, c: Call, r: Store) {
    var order, excess := c.target.order, c.order.Some? && QtyOf(c.activities, c.target) > c.order.value;
    && r.latched == (s.latched || (c.verify && excess))
    && (forall other :: other != order ==>
          (other in r.holds <==> other in s.holds) && (other in s.holds ==> r.holds[other] == s.holds[other]))
    && (if !c.verify then
          (order in r.holds <==> order in s.holds) && (order in s.holds ==> r.holds[order] == s.holds[order])
        else if c.order.None? then
          order in r.holds && r.holds[order] == if order in s.holds then s.holds[order] else VerificationPending
        else if excess then order in r.holds && r.holds[order] == Disputed
        else if order in s.holds && s.holds[order] == Disputed then order in r.holds && r.holds[order] == Disputed
        else order !in r.holds)
  }

  lemma {:induction false} HoldPartDecides(s: Store, c: Call, rows: seq<nat>)
    ensures HoldsAfter(s, c, ApplyAll(s, HoldWrites(s, c, rows)))
  {
    var order := c.target.order;
    AttributedIs(c.activities, c.target);
    if Disputes(c) {
      var create: seq<Write> := [CreateHold(order, Disputed)];
      var update: seq<Write> := if order in s.holds then [UpdateHold(order, Disputed)] else [];
      var latch: seq<Write> := [Latch];
      var blocked := ApplyAll(s, Blocks(rows));
      assert HoldWrites(s, c, rows) == Blocks(rows) + (create + (update + latch));
      ApplyParts(s, Blocks(rows), create + (update + latch));
      BlocksAre(s, rows);
      ApplyParts(blocked, create, update + latch);
      OneWrite(blocked, create[0]);
      ApplyParts(Apply(blocked, create[0]), update, latch);
      if order in s.holds { OneWrite(Apply(blocked, create[0]), update[0]); }
      OneWrite(ApplyAll(Apply(blocked, create[0]), update), Latch);
    } else {
      var writes := HoldWrites(s, c, rows);
      if writes != [] { OneWrite(s, writes[0]); }
    }
  }

  lemma {:induction false} OneWrite(s: Store, w: Write)
    ensures ApplyAll(s, [w]) == Apply(s, w)
  {
    assert [w][1..] == [];
  }

  /** What a completed call leaves of the holds and the latch. */
  lemma CompletedCallHolds(s: Store, c: Call, rows: seq<nat>)
    ensures HoldsAfter(s, c, Finished(s, c, rows))
  {
    hide HoldsAfter, HoldWrites, RecordWrites, FillsOf;
    var records := RecordWrites(c.target, FillsOf(c));
    ApplyParts(s, HoldWrites(s, c, rows), records);
    HoldPartDecides(s, c, rows);
    RecordWritesAre(c.target, FillsOf(c));
    RecordsKeep(ApplyAll(s, HoldWrites(s, c, rows)), records);
    SameHolds(s, c, ApplyAll(s, HoldWrites(s, c, rows)), Finished(s, c, rows));
  }

  lemma SameHolds(s: Store, c: Call, a: Store, b: Store)
    requires HoldsAfter(s, c, a) && b.holds == a.holds && b.latched == a.latched
    ensures HoldsAfter(s, c, b)
  {
  }

  lemma {:induction false} HoldPartStatuses(s: Store, c: Call, rows: seq<nat>)
    ensures var r := ApplyAll(s, HoldWrites(s, c, rows));
            && r.settlements.Keys == s.settlements.Keys
            && forall id :: id in s.settlements ==>
                 r.settlements[id] == (if Disputes(c) && id in rows && (s.settlements[id].status == Pending
                                                        || s.settlements[id].status == RetryableFailed)
                                       then s.settlements[id].(status := IntegrityBlocked) else s.settlements[id])
  {
    if Disputes(c) {
      var rest := HoldWrites(s, c, rows)[|rows|..];
      assert HoldWrites(s, c, rows) == Blocks(rows) + rest;
      ApplyParts(s, Blocks(rows), rest);
      BlocksAre(s, rows);
      SettlementsUntouched(ApplyAll(s, Blocks(rows)), rest);
    } else {
      SettlementsUntouched(s, HoldWrites(s, c, rows));
    }
  }

  lemma {:induction false} SettlementsUntouched(s: Store, writes: seq<Write>)
    requires forall w :: w in writes ==> w.CreateHold? || w.UpdateHold? || w.DeleteHold? || w.Latch?
    ensures ApplyAll(s, writes).settlements == s.settlements
    decreases |writes|
  {
    if writes != [] {
      assert writes[0] in writes;
      SettlementsUntouched(Apply(s, writes[0]), writes[1..]);
    }
  }

  /** The events after a completed call: the intent's pending and retryable ones are blocked when the attributed
      quantity exceeds the filled one, every other event stays as it was, and new ones are pending. */
  lemma CompletedCallStatuses(s: Store, c: Call, rows: seq<nat>, id: nat)
    requires ListsRows(s, c, rows) && id in Finished(s, c, rows).settlements
    ensures var status := Finished(s, c, rows).settlements[id].status;
            var excess := c.verify && c.order.Some? && QtyOf(c.activities, c.target) > c.order.value;
            if id !in s.settlements then status == Pending
            else if excess && s.settlements[id].fill.intent == c.target.intent
              && (s.settlements[id].status == Pending || s.settlements[id].status == RetryableFailed)
              then status == IntegrityBlocked
            else status == s.settlements[id].status
  {
    var records, held := RecordWrites(c.target, FillsOf(c)), ApplyAll(s, HoldWrites(s, c, rows));
    hide HoldWrites, RecordWrites, ApplyAll;
    AttributedIs(c.activities, c.target);
    ApplyParts(s, HoldWrites(s, c, rows), records);
    HoldPartStatuses(s, c, rows);
    RecordWritesAre(c.target, FillsOf(c));
    RecordsKeep(held, records);
    if id !in s.settlements { NewRecordsPend(held, records, id); }
  }
}
