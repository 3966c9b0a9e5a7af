/** Attribution and order resolution against repositories whose every write is one transaction, in a process that may
    stop after any of them. */
module FillAttribution {
  import opened Common
  import opened AttributionModel

  // ---- the intent's status ----

  datatype IntentStatus =
    | RiskApproved | Submitted | Accepted | PartiallyFilled | SubmissionUnknown
    | Filled | Rejected | Canceled | Expired | Failed

  predicate IsTerminal(s: IntentStatus) {
    s == Filled || s == Rejected || s == Canceled || s == Expired || s == Failed
  }

  /** The broker's order statuses this code tells apart. */
  datatype OrderStatus = OrderFilled | DoneForDay | OrderRejected | OrderCanceled | OrderExpired | Replaced | OrderOther

  predicate IsFailure(s: OrderStatus) {
    s == OrderRejected || s == OrderCanceled || s == OrderExpired || s == Replaced
  }

  predicate IsTerminalOrder(s: OrderStatus) {
    s == OrderFilled || s == DoneForDay || IsFailure(s)
  }

  /** The local status of a terminal order, by exact attributed quantity; `None` when the broker is inconclusive. */
  function TerminalStatus(s: OrderStatus, attributed: real, requested: Option<real>): (r: Option<IntentStatus>)
    ensures r == Some(Filled) <==> requested.Some? && 0.0 < requested.value <= attributed
    ensures r == Some(PartiallyFilled) <==> r != Some(Filled) && s == DoneForDay && attributed > 0.0
    ensures r == Some(Rejected) <==> r != Some(Filled) && s == OrderRejected
    ensures r == Some(Canceled) <==> r != Some(Filled) && (s == OrderCanceled || s == Replaced)
    ensures r == Some(Expired) <==> r != Some(Filled) && s == OrderExpired
    ensures r.None? <==> r != Some(Filled) && (s == OrderFilled || s == OrderOther
                                               || (s == DoneForDay && attributed <= 0.0))
  {
    if requested.Some? && requested.value > 0.0 && attributed >= requested.value then Some(Filled)
    else match s
      case OrderRejected => Some(Rejected)
      case OrderCanceled => Some(Canceled)
      case OrderExpired => Some(Expired)
      case Replaced => Some(Canceled)
      case DoneForDay => if attributed > 0.0 then Some(PartiallyFilled) else None
      case OrderFilled => None
      case OrderOther => None
  }

  datatype Intent = Intent(status: IntentStatus, requested: Option<real>, filledQty: real, avgPrice: Option<real>)

  datatype BrokerOrder = BrokerOrder(status: OrderStatus, filledQty: real)

  /** What one resolution writes over the stored intent, if anything, given the caller's snapshot of it, what was
      attributed and what the broker says of the order. */
  function Resolution(i: Intent, a: Attributed, order: Option<BrokerOrder>): Option<Intent> {
    if IsTerminal(i.status) || order.None? || a.qty > order.value.filledQty then None
    else
      var price := if a.avgPrice.Some? then a.avgPrice else i.avgPrice;
      if IsTerminalOrder(order.value.status) && a.qty >= order.value.filledQty then
        var status := TerminalStatus(order.value.status, a.qty, i.requested);
        if status.None? then None else Some(i.(status := status.value, filledQty := a.qty, avgPrice := price))
      else if a.qty != i.filledQty then
        Some(i.(filledQty := a.qty, avgPrice := price, status := if a.qty > 0.0 then PartiallyFilled else i.status))
      else None
  }

  /** The request is covered by what is attributed. */
  predicate Covered(i: Intent, a: Attributed) {
    i.requested.Some? && 0.0 < i.requested.value <= a.qty
  }

  /** An intent whose snapshot is open is written exactly when the order can be read and does not lag behind what is
      attributed, and either ends the intent conclusively or moves its quantity. What is written is the attributed
      quantity with its own average price, or the old price while nothing is attributed. */
  lemma {:induction false} ResolvedExactly(i: Intent, fills: seq<Valid>, order: Option<BrokerOrder>)
    ensures var a := AttributedOf(fills);
            var w, over := Resolution(i, a, order), order.Some? && a.qty == order.value.filledQty
                             && order.value.status != OrderOther;
            && (w.Some? <==>
                  && i.status != Filled && i.status != Rejected && i.status != Canceled && i.status != Expired
                  && i.status != Failed
                  && order.Some? && a.qty <= order.value.filledQty
                  && (if over
                      then || Covered(i, a) || (order.value.status == DoneForDay && a.qty > 0.0)
                           || (order.value.status != DoneForDay && order.value.status != OrderFilled)
                      else a.qty != i.filledQty))
            && (w.Some? ==>
                  && w.value.requested == i.requested && w.value.filledQty == a.qty
                  && w.value.avgPrice == (if a.qty > 0.0 then Some(Notional(fills) / a.qty) else i.avgPrice)
                  && w.value.status == if over then TerminalStatus(order.value.status, a.qty, i.requested).value
                                       else if a.qty > 0.0 then PartiallyFilled else i.status)
  {
  }

  /** Whatever runs and crashes came before, an intent is closed only by a terminal order all of whose filled quantity
      is attributed to fills that are then in the store with their events, each saying what the broker's record says;
      and it is closed as filled exactly when they cover the request. */
  lemma ClosedOnlyOnFullEvidence(b: Broker, s: Store, c: Call, rows: seq<nat>, i: Intent, order: Option<BrokerOrder>)
    requires Backed(s) && Faithful(b, s) && Reports(b, c)
    requires var w := Resolution(i, AttributedOf(FillsOf(c)), order); w.Some? && IsTerminal(w.value.status)
    ensures var w := Resolution(i, AttributedOf(FillsOf(c)), order).value;
            && order.Some? && IsTerminalOrder(order.value.status)
            && TotalQty(FillsOf(c)) == order.value.filledQty == w.filledQty
            && (w.status == Filled <==> i.requested.Some? && 0.0 < i.requested.value <= w.filledQty)
    ensures var r := Finished(s, c, rows);
            forall v :: v in FillsOf(c) ==>
              && v.id in r.fills && r.fills[v.id] == FillOn(b, v.id) && r.fills[v.id].qty == v.qty
              && v.id in r.settlements && r.settlements[v.id].fill == FillOn(b, v.id)
  {
    hide Finished, Reports, FillOn;
    ReportIsConsistent(b, s, c);
    CompletedCallRecordsEach(s, c, rows);
    forall v | v in FillsOf(c) ensures Record(c.target, v) == FillOn(b, v.id) { ReportedFills(b, c, v); }
  }

  /** The decision is made on the caller's snapshot, so an intent closed meanwhile is reopened exactly when the
      snapshot is still open and the resolution advances it short of closing. */
  lemma StaleSnapshotReopens(stored: Intent, i: Intent, a: Attributed, order: Option<BrokerOrder>)
    requires IsTerminal(stored.status)
    ensures !IsTerminal(Resolution(i, a, order).GetOr(stored).status)
            <==> !IsTerminal(i.status) && order.Some? && a.qty <= order.value.filledQty
                 && if IsTerminalOrder(order.value.status) && a.qty == order.value.filledQty
                    then order.value.status == DoneForDay && a.qty > 0.0
                         && !(i.requested.Some? && 0.0 < i.requested.value <= a.qty)
                    else a.qty != i.filledQty
    ensures i == stored ==> Resolution(i, a, order).None?
  {
  }

  // ---- the repositories ----

  /** `budget` is how many more writes the process survives. */
  class Repositories {
    var fills: map<nat, Fill>
    var settlements: map<nat, Settlement>
    var holds: map<nat, Hold>
    var latched: bool
    var intents: map<nat, Intent>
    var budget: nat

    ghost function Now(): Store
      reads this
    {
      Store(fills, settlements, holds, latched)
    }

    constructor (budget: nat)
      ensures Now() == Store(map[], map[], map[], false) && intents == map[] && this.budget == budget
    {
      fills, settlements, holds, latched, intents := map[], map[], map[], false, map[];
      this.budget := budget;
    }

    /** Either the write's whole transaction, or nothing because the process has stopped. */
    ghost predicate Wrote(was: Store, had: nat, w: Write, ok: bool)
      reads this
    {
      if had == 0 then !ok && Now() == was && budget == 0
      else ok && Now() == Apply(was, w) && budget == had - 1
    }

    method CreateFillOnce(id: nat, fill: Fill) returns (ok: bool)
      modifies `fills, `budget
      ensures Wrote(old(Now()), old(budget), CreateFill(id, fill), ok)
    {
      if budget == 0 { return false; }
      budget := budget - 1;
      if id !in fills { fills := fills[id := fill]; }
      ok := true;
    }

    method CreateSettlementOnce(id: nat, fill: Fill) returns (ok: bool)
      modifies `settlements, `budget
      ensures Wrote(old(Now()), old(budget), CreateSettlement(id, fill), ok)
    {
      if budget == 0 { return false; }
      budget := budget - 1;
      if id !in settlements { settlements := settlements[id := Settlement(fill, Pending)]; }
      ok := true;
    }

    /** `created` says whether the row is new. */
    method CreateHoldOnce(order: nat, hold: Hold) returns (ok: bool, created: bool)
      modifies `holds, `budget
      ensures Wrote(old(Now()), old(budget), CreateHold(order, hold), ok)
      ensures created <==> ok && order !in old(holds)
    {
      if budget == 0 { return false, false; }
      budget := budget - 1;
      created := order !in holds;
      if created { holds := holds[order := hold]; }
      ok := true;
    }

    method UpdateHold(order: nat, hold: Hold) returns (ok: bool)
      modifies `holds, `budget
      ensures Wrote(old(Now()), old(budget), Write.UpdateHold(order, hold), ok)
    {
      if budget == 0 { return false; }
      budget := budget - 1;
      if order in holds { holds := holds[order := hold]; }
      ok := true;
    }

    method DeleteHold(order: nat) returns (ok: bool)
      modifies `holds, `budget
      ensures Wrote(old(Now()), old(budget), Write.DeleteHold(order), ok)
    {
      if budget == 0 { return false; }
      budget := budget - 1;
      holds := holds - {order};
      ok := true;
    }

    /** Claims the row only while it is pending or retryable. */
    method ClaimBlocked(id: nat) returns (ok: bool)
      modifies `settlements, `budget
      ensures Wrote(old(Now()), old(budget), Block(id), ok)
    {
      if budget == 0 { return false; }
      budget := budget - 1;
      if id in settlements && (settlements[id].status == Pending || settlements[id].status == RetryableFailed) {
        settlements := settlements[id := settlements[id].(status := IntegrityBlocked)];
      }
      ok := true;
    }

    method LatchBlock() returns (ok: bool)
      modifies `latched, `budget
      ensures Wrote(old(Now()), old(budget), Latch, ok)
    {
      if budget == 0 { return false; }
      budget := budget - 1;
      latched := true;
      ok := true;
    }

    method ListByIntent(intent: nat) returns (rows: seq<nat>)
      ensures forall id :: id in rows <==> id in settlements && settlements[id].fill.intent == intent
    {
      rows := [];
      var left := settlements.Keys;
      while left != {}
        invariant left <= settlements.Keys
        invariant forall id :: id in rows <==> id in settlements.Keys - left && settlements[id].fill.intent == intent
        decreases |left|
      {
        var id :| id in left;
        left := left - {id};
        if settlements[id].fill.intent == intent { rows := rows + [id]; }
      }
    }

    // ---- one attribution call ----

    /** As many of the planned writes as the process survives. */
    ghost predicate Made(was: Store, had: nat, plan: seq<Write>, done: bool)
      reads this
    {
      && (done <==> |plan| <= had)
      && Now() == ApplyAll(was, if done then plan else plan[..had])
      && budget == if done then had - |plan| else 0
    }

    method BlockRows(rows: seq<nat>) returns (done: bool)
      modifies `settlements, `budget
      ensures Made(old(Now()), old(budget), Blocks(rows), done)
    {
      for n := 0 to |rows|
        invariant Made(old(Now()), old(budget), Blocks(rows[..n]), true)
      {
        ghost var was, had := Now(), budget;
        done := ClaimBlocked(rows[n]);
        assert Blocks(rows[..n + 1]) == Blocks(rows[..n]) + [Block(rows[n])];
        OneMore(old(Now()), Blocks(rows[..n]), Block(rows[n]));
        if !done {
          assert Blocks(rows)[..n] == Blocks(rows[..n]);
          return;
        }
      }
      assert rows[..|rows|] == rows;
      done := true;
    }

    /** Quarantine first, then the permanent hold, then the latch. */
    method RaiseDispute(order: nat, rows: seq<nat>) returns (done: bool)
      modifies `settlements, `holds, `latched, `budget
      ensures Made(old(Now()), old(budget), DisputeWrites(old(Now()), order, rows), done)
    {
      ghost var s0, had := Now(), budget;
      done := BlockRows(rows);
      ghost var made := Blocks(rows);
      ghost var plan := DisputeWrites(s0, order, rows);
      if !done { assert plan[..had] == made[..had]; return; }
      BlocksKeepHolds(s0, made);
      OneMore(s0, made, CreateHold(order, Disputed));
      var created;
      done, created := CreateHoldOnce(order, Disputed);
      if !done { assert plan[..had] == made; return; }
      made := made + [CreateHold(order, Disputed)];
      if !created {
        OneMore(s0, made, Write.UpdateHold(order, Disputed));
        done := UpdateHold(order, Disputed);
        if !done { assert plan[..had] == made; return; }
        made := made + [Write.UpdateHold(order, Disputed)];
      }
      OneMore(s0, made, Latch);
      done := LatchBlock();
      assert made + [Latch] == plan;
      if !done { assert plan[..had] == made; }
    }

    /** The hold is decided, and written, before any record. */
    method SettleHold(c: Call) returns (done: bool, ghost rows: seq<nat>)
      modifies `settlements, `holds, `latched, `budget
      ensures ListsRows(old(Now()), c, rows)
      ensures Made(old(Now()), old(budget), HoldWrites(old(Now()), c, rows), done)
    {
      ghost var s0, had := Now(), budget;
      var listed := ListByIntent(c.target.intent);
      rows := listed;
      var order := c.target.order;
      done := true;
      if c.verify {
        if c.order.Some? {
          if TotalQty(FillsOf(c)) > c.order.value {
            done := RaiseDispute(order, listed);
            assert HoldWrites(s0, c, rows) == DisputeWrites(s0, order, rows);
            return;
          }
          if order in holds && holds[order] == VerificationPending {
            OneMore(s0, [], Write.DeleteHold(order));
            assert [] + [Write.DeleteHold(order)] == [Write.DeleteHold(order)];
            done := DeleteHold(order);
            return;
          }
        } else if order !in holds {
          OneMore(s0, [], CreateHold(order, VerificationPending));
          assert [] + [CreateHold(order, VerificationPending)] == [CreateHold(order, VerificationPending)];
          var created;
          done, created := CreateHoldOnce(order, VerificationPending);
          return;
        }
      }
      assert HoldWrites(s0, c, rows) == [];
    }

    /** Two transactions: a crash between them leaves the fill without its event, which the next call repairs. */
    method RecordOne(t: Target, v: Valid) returns (done: bool)
      modifies `fills, `settlements, `budget
      ensures Made(old(Now()), old(budget), OneRecord(t, v), done)
    {
      hide Apply;
      ghost var s0 := Now();
      var fill := Record(t, v);
      OneMore(s0, [], CreateFill(v.id, fill));
      assert [] + [CreateFill(v.id, fill)] == [CreateFill(v.id, fill)];
      assert OneRecord(t, v)[..0] == [] && OneRecord(t, v)[..1] == [CreateFill(v.id, fill)];
      ApplyTwo(s0, CreateFill(v.id, fill), CreateSettlement(v.id, fill));
      done := CreateFillOnce(v.id, fill);
      if !done { return; }
      done := CreateSettlementOnce(v.id, fill);
    }

    method RecordFills(t: Target, valid: seq<Valid>) returns (done: bool)
      modifies `fills, `settlements, `budget
      ensures Made(old(Now()), old(budget), RecordWrites(t, valid), done)
    {
      hide Apply, ApplyAll, OneRecord, RecordWrites;
      ghost var s0, had := Now(), budget;
      ghost var made: seq<Write> := [];
      NothingYet(s0, t);
      assert valid[0..] == valid;
      for n := 0 to |valid|
        invariant Made(s0, had, made, true)
        invariant made + RecordWrites(t, valid[n..]) == RecordWrites(t, valid)
      {
        ghost var was := budget;
        RecordsFrom(t, valid, n);
        ghost var one := OneRecord(t, valid[n]);
        ApplyParts(s0, made, one);
        done := RecordOne(t, valid[n]);
        if !done {
          ApplyParts(s0, made, one[..was]);
          assert RecordWrites(t, valid)[..had] == made + one[..was];
          return;
        }
        made := made + one;
      }
      assert valid[|valid|..] == [];
      assert made + [] == made;
      assert made == RecordWrites(t, valid);
      done := true;
    }

    /** One call, or as much of it as the process survives. `attributed` is meaningful when the call completes. */
    method AttributeOrderFills(c: Call) returns (done: bool, attributed: Attributed, ghost rows: seq<nat>)
      modifies `fills, `settlements, `holds, `latched, `budget
      ensures ListsRows(old(Now()), c, rows)
      ensures Made(old(Now()), old(budget), Plan(old(Now()), c, rows), done)
      ensures attributed == AttributedOf(FillsOf(c))
      ensures attributed.qty == QtyOf(c.activities, c.target)
      ensures attributed.avgPrice.Some? <==> attributed.qty > 0.0
      ensures attributed.qty > 0.0 ==> attributed.avgPrice.value == PaidFor(c.activities, c.target) / attributed.qty
      ensures done ==> HoldsAfter(old(Now()), c, Now())
      ensures done ==> forall a :: a in c.activities && Belongs(a, c.target) ==>
                         a.id.value in fills && a.id.value in settlements
    {
      hide RecordWrites, HoldWrites, ListsRows, HoldsAfter, QtyOf, PaidFor, TotalQty, Notional, Validated;
      AttributedIs(c.activities, c.target);
      ghost var s0, had := Now(), budget;
      var valid := Validated(c.activities, c.target);
      attributed := Average(valid);
      done, rows := SettleHold(c);
      ghost var holdPart, recordPart := HoldWrites(s0, c, rows), RecordWrites(c.target, valid);
      if !done { assert Plan(s0, c, rows)[..had] == holdPart[..had]; return; }
      done := RecordFills(c.target, valid);
      ApplyParts(s0, holdPart, recordPart);
      if done {
        CompletedCallHolds(s0, c, rows);
        forall a | a in c.activities && Belongs(a, c.target) ensures a.id.value in fills && a.id.value in settlements {
          CompletedCallHasEach(s0, c, rows, a);
        }
      }
      if !done {
        var n := had - |holdPart|;
        assert Plan(s0, c, rows)[..had] == holdPart + recordPart[..n];
        ApplyParts(s0, holdPart, recordPart[..n]);
      }
    }

    /** Quantity and price from the same activities. */
    method Average(valid: seq<Valid>) returns (a: Attributed)
      ensures a == AttributedOf(valid)
    {
      var total, notional := 0.0, 0.0;
      for n := 0 to |valid|
        invariant total == TotalQty(valid[..n]) && notional == Notional(valid[..n])
      {
        assert valid[..n + 1][..n] == valid[..n];
        total := total + valid[n].qty;
        notional := notional + valid[n].qty * valid[n].price;
      }
      assert valid[..|valid|] == valid;
      a := Attributed(total, if total > 0.0 then Some(notional / total) else None);
    }

    /** Late recovery: attribute with the check, then close or advance the intent on the order's own status. `i` is the
        caller's snapshot of the intent, on which everything is decided and which is written back. */
    method ResolveOrder(intent: nat, i: Intent, c: Call, order: Option<BrokerOrder>)
      returns (done: bool, ghost rows: seq<nat>)
      requires intent in intents && c.verify && c.target.intent == intent
      modifies this
      ensures ListsRows(old(Now()), c, rows)
      ensures var plan := Plan(old(Now()), c, rows);
              Now() == ApplyAll(old(Now()), if |plan| <= old(budget) then plan else plan[..old(budget)])
      ensures old(budget) == 0 ==> intents == old(intents)
      ensures var w := Resolution(i, AttributedOf(FillsOf(c)), order);
              && (intents == old(intents) || (w.Some? && intents == old(intents)[intent := w.value]))
              && (done ==> intents == if w.Some? then old(intents)[intent := w.value] else old(intents))
    {
      var attributed: Attributed;
      done, attributed, rows := AttributeOrderFills(c);
      if !done { return; }
      if IsTerminal(i.status) || order.None? { return; }
      var cumulative := order.value.filledQty;
      if attributed.qty > cumulative { return; }
      var price := if attributed.avgPrice.Some? then attributed.avgPrice else i.avgPrice;
      if IsTerminalOrder(order.value.status) && attributed.qty >= cumulative {
        var status := TerminalStatus(order.value.status, attributed.qty, i.requested);
        if status.None? { return; }
        done := UpdateIntent(intent, i.(status := status.value, filledQty := attributed.qty, avgPrice := price));
      } else if attributed.qty != i.filledQty {
        done := UpdateIntent(intent, i.(filledQty := attributed.qty, avgPrice := price,
                                        status := if attributed.qty > 0.0 then PartiallyFilled else i.status));
      }
    }

    method UpdateIntent(id: nat, intent: Intent) returns (ok: bool)
      modifies `intents, `budget
      ensures if old(budget) == 0 then !ok && intents == old(intents) && budget == 0
              else ok && intents == old(intents)[id := intent] && budget == old(budget) - 1
    {
      if budget == 0 { return false; }
      budget := budget - 1;
      intents := intents[id := intent];
      ok := true;
    }
  }

  function DisputeWrites(s: Store, order: nat, rows: seq<nat>): seq<Write> {
    Blocks(rows) + [CreateHold(order, Disputed)] + (if order in s.holds then [UpdateHold(order, Disputed)] else [])
      + [Latch]
  }

  function OneRecord(t: Target, v: Valid): seq<Write> {
    [CreateFill(v.id, Record(t, v)), CreateSettlement(v.id, Record(t, v))]
  }

  lemma {:induction false} NothingYet(s: Store, t: Target)
    ensures ApplyAll(s, []) == s && RecordWrites(t, []) == []
  {
  }

  lemma {:induction false} RecordsFrom(t: Target, valid: seq<Valid>, n: nat)
    requires n < |valid|
    ensures RecordWrites(t, valid[n..]) == OneRecord(t, valid[n]) + RecordWrites(t, valid[n + 1..])
  {
    assert valid[n..][0] == valid[n] && valid[n..][1..] == valid[n + 1..];
  }

  lemma {:induction false} OneMore(s: Store, writes: seq<Write>, w: Write)
    ensures ApplyAll(s, writes + [w]) == Apply(ApplyAll(s, writes), w)
  {
    ApplyParts(s, writes, [w]);
    assert [w][1..] == [];
  }
}
