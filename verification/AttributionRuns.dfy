/** Attribution over whole runs of calls that may each stop after any write, with settlement projecting in between. */
module AttributionRuns {
  import opened Common
  import opened AttributionModel

  /** A call that made its first `done` writes, or settlement projecting one event. */
  datatype Event = Attributes(call: Call, rows: seq<nat>, done: nat) | Projects(id: nat)

  ghost predicate Allowed(b: Broker, s: Store, e: Event) {
    match e
    case Attributes(c, rows, done) =>
      ListsRows(s, c, rows) && Reports(b, c) && done <= |Plan(s, c, rows)|
    case Projects(id) => Projectable(s, id)
  }

  ghost function Result(b: Broker, s: Store, e: Event): Store
    requires Allowed(b, s, e)
  {
    match e
    case Attributes(c, rows, done) => Crashed(s, c, rows, done)
    case Projects(id) => s.(settlements := s.settlements[id := s.settlements[id].(status := Completed)])
  }

  ghost predicate AllAllowed(b: Broker, s: Store, events: seq<Event>)
    decreases |events|
  {
    events == [] || (Allowed(b, s, events[0]) && AllAllowed(b, Result(b, s, events[0]), events[1..]))
  }

  ghost function Final(b: Broker, s: Store, events: seq<Event>): Store
    requires AllAllowed(b, s, events)
    decreases |events|
  {
    if events == [] then s else Final(b, Result(b, s, events[0]), events[1..])
  }

  /** No call of the run completes the order's check and finds it consistent. */
  predicate NeverVerified(events: seq<Event>, order: nat) {
    forall e :: e in events && e.Attributes? && e.call.target.order == order ==> !Verifies(e.call)
  }

  lemma {:induction false} RunKeepsBacked(b: Broker, s: Store, events: seq<Event>)
    requires Backed(s) && Faithful(b, s) && AllAllowed(b, s, events)
    ensures Backed(Final(b, s, events)) && Faithful(b, Final(b, s, events)) && Kept(s, Final(b, s, events))
    decreases |events|
  {
    hide Plan, Crashed, Reports, Consistent, FillOn;
    if events != [] {
      var e := events[0];
      if e.Attributes? {
        ReportIsConsistent(b, s, e.call);
        CrashKeepsBacked(s, e.call, e.rows, e.done);
        CrashKeepsFaith(b, s, e.call, e.rows, e.done);
      }
      RunKeepsBacked(b, Result(b, s, e), events[1..]);
    }
  }

  /** Exactly once: whatever calls crashed where before, as long as every call is told parts of one and the same
      broker record, one completed call leaves exactly one fill and one settlement event per activity of the order that
      matches the trade, with its very quantity, price and time, and records nothing else; and nothing that was recorded
      changes. */
  lemma {:induction false} ExactlyOnce(b: Broker, s: Store, events: seq<Event>, c: Call, rows: seq<nat>)
    requires Backed(s) && Faithful(b, s) && AllAllowed(b, s, events) && Reports(b, c)
    ensures var before, t := Final(b, s, events), c.target;
            var after := Finished(before, c, rows);
            && Backed(after) && Kept(s, after) && Kept(before, after) && Faithful(b, after)
            && (forall a :: a in c.activities && Belongs(a, t) ==>
                  && a.id.value in after.fills && a.id.value in after.settlements
                  && after.fills[a.id.value] == Fill(t.intent, t.order, a.qty.value, a.price.value, a.at.value)
                  && after.settlements[a.id.value].fill == after.fills[a.id.value])
            && (forall id :: (id in after.fills && id !in before.fills)
                             || (id in after.settlements && id !in before.settlements) ==>
                  exists a :: a in c.activities && Belongs(a, t) && a.id == Some(id))
  {
    hide Plan, Finished, FillOn, Record, Consistent, Faithful, Reports, Validated;
    var before, t := Final(b, s, events), c.target;
    RunKeepsBacked(b, s, events);
    ReportIsConsistent(b, before, c);
    CompletedCallRecordsEach(before, c, rows);
    CompletesFaithfully(b, before, c, rows);
    forall a | a in c.activities && Belongs(a, t)
      ensures exists v :: v in FillsOf(c) && Some(v.id) == a.id
                          && Record(t, v) == Fill(t.intent, t.order, a.qty.value, a.price.value, a.at.value)
    {
      MatchingIsRecorded(c, a);
    }
    forall v | v in FillsOf(c) ensures exists a :: a in c.activities && Belongs(a, t) && a.id == Some(v.id) {
      RecordedMatches(c, v);
    }
  }

  lemma MatchingIsRecorded(c: Call, a: Activity)
    requires a in c.activities && Belongs(a, c.target)
    ensures exists v :: && v in FillsOf(c) && Some(v.id) == a.id
                        && Record(c.target, v)
                           == Fill(c.target.intent, c.target.order, a.qty.value, a.price.value, a.at.value)
  {
    var v := Valid(a.id.value, a.qty.value, a.price.value, a.at.value);
    ValidatedFieldByField(c.activities, c.target, v);
    assert v in FillsOf(c);
  }

  lemma RecordedMatches(c: Call, v: Valid)
    requires v in FillsOf(c)
    ensures exists a :: a in c.activities && Belongs(a, c.target) && a.id == Some(v.id)
  {
    ValidatedFieldByField(c.activities, c.target, v);
  }

  lemma CompletesFaithfully(b: Broker, s: Store, c: Call, rows: seq<nat>)
    requires Faithful(b, s) && Reports(b, c)
    ensures Faithful(b, Finished(s, c, rows))
  {
    hide Faithful, Reports;
    var plan := Plan(s, c, rows);
    CrashKeepsFaith(b, s, c, rows, |plan|);
    assert plan[..|plan|] == plan;
  }

  /** One event keeps an order held unless a call of that order verifies; a disputed hold it always keeps. */
  lemma EventKeepsHold(b: Broker, s: Store, e: Event, order: nat)
    requires Allowed(b, s, e) && order in s.holds
    requires s.holds[order] == Disputed || !(e.Attributes? && e.call.target.order == order && Verifies(e.call))
    ensures var r := Result(b, s, e); order in r.holds && (s.holds[order] == Disputed ==> r.holds[order] == Disputed)
  {
    if e.Attributes? {
      var plan := Plan(s, e.call, e.rows);
      PlanDeletes(s, e.call, e.rows, order);
      assert forall w :: w in plan[..e.done] ==> w in plan;
      HoldsPersist(s, plan[..e.done], order);
    }
  }

  lemma {:induction false} HoldOutlastsRun(b: Broker, s: Store, events: seq<Event>, order: nat)
    requires AllAllowed(b, s, events) && order in s.holds
             && (s.holds[order] == Disputed || NeverVerified(events, order))
    ensures var r := Final(b, s, events);
            order in r.holds && (s.holds[order] == Disputed ==> r.holds[order] == Disputed)
    decreases |events|
  {
    hide Result, Allowed, Verifies;
    if events != [] {
      assert events[0] in events;
      EventKeepsHold(b, s, events[0], order);
      HoldOutlastsRun(b, Result(b, s, events[0]), events[1..], order);
    }
  }

  /** A disputed order stays disputed for ever, and none of its events is ever projectable again. */
  lemma {:induction false} DisputeIsAbsorbing(b: Broker, s: Store, events: seq<Event>, order: nat)
    requires AllAllowed(b, s, events) && order in s.holds && s.holds[order] == Disputed
    ensures var r := Final(b, s, events);
            && order in r.holds && r.holds[order] == Disputed
            && forall id :: id in r.settlements && r.settlements[id].fill.order == order ==> !Projectable(r, id)
  {
    HoldOutlastsRun(b, s, events, order);
  }

  /** An event first written by a call that saw a dispute or could not verify is not projectable at any later point of
      any run, crashes included, until a call of that order verifies. */
  lemma {:induction false} DoubtIsNeverProjected(b: Broker, s: Store, c: Call, rows: seq<nat>, n: nat, id: nat,
                                                 events: seq<Event>)
    requires Backed(s) && Faithful(b, s) && Allowed(b, s, Attributes(c, rows, n)) && Doubtful(c)
    requires id !in s.settlements && id in Crashed(s, c, rows, n).settlements
    requires AllAllowed(b, Crashed(s, c, rows, n), events)
    requires Disputes(c) || NeverVerified(events, c.target.order)
    ensures !Projectable(Final(b, Crashed(s, c, rows, n), events), id)
  {
    var t := Crashed(s, c, rows, n);
    ReportIsConsistent(b, s, c);
    CrashKeepsBacked(s, c, rows, n);
    CrashKeepsFaith(b, s, c, rows, n);
    HoldComesFirst(s, c, rows, n, id);
    HoldOutlastsRun(b, t, events, c.target.order);
    RunKeepsBacked(b, t, events);
  }

  /** And a completed check that finds the order consistent does release it: its pending and retryable events can be
      projected again. */
  lemma VerifyingReleases(s: Store, c: Call, rows: seq<nat>)
    requires Verifies(c) && c.target.order in s.holds && s.holds[c.target.order] == VerificationPending
    ensures var r := Finished(s, c, rows);
            && c.target.order !in r.holds
            && forall id :: id in r.settlements && r.settlements[id].fill.order == c.target.order ==>
                 (Projectable(r, id) <==> r.settlements[id].status == Pending
                                          || r.settlements[id].status == RetryableFailed)
  {
    var order := c.target.order;
    var records := RecordWrites(c.target, FillsOf(c));
    assert HoldWrites(s, c, rows) == [DeleteHold(order)];
    ApplyParts(s, [DeleteHold(order)], records);
    assert [DeleteHold(order)][1..] == [];
    RecordWritesAre(c.target, FillsOf(c));
    RecordsKeepHolds(Apply(s, DeleteHold(order)), records);
  }

  lemma {:induction false} RecordsKeepHolds(s: Store, writes: seq<Write>)
    requires forall w :: w in writes ==> w.CreateFill? || w.CreateSettlement?
    ensures ApplyAll(s, writes).holds == s.holds
    decreases |writes|
  {
    if writes != [] {
      assert writes[0] in writes;
      RecordsKeepHolds(Apply(s, writes[0]), writes[1..]);
    }
  }

  /** A completed dispute leaves none of the intent's earlier events processable. */
  lemma DisputeQuarantines(s: Store, c: Call, rows: seq<nat>, id: nat)
    requires Disputes(c) && ListsRows(s, c, rows) && id in s.settlements
             && s.settlements[id].fill.intent == c.target.intent
    ensures var r := Finished(s, c, rows);
            id in r.settlements && r.settlements[id].status != Pending && r.settlements[id].status != RetryableFailed
  {
    var rest := Plan(s, c, rows)[|rows|..];
    assert Plan(s, c, rows) == Blocks(rows) + rest;
    ApplyParts(s, Blocks(rows), rest);
    BlockedAll(s, rows, id);
    WritesKeep(s, Blocks(rows));
    StaysBlocked(ApplyAll(s, Blocks(rows)), rest, id);
  }

  lemma {:induction false} StaysBlocked(s: Store, writes: seq<Write>, id: nat)
    requires id in s.settlements && s.settlements[id].status != Pending && s.settlements[id].status != RetryableFailed
    ensures var r := ApplyAll(s, writes); id in r.settlements && r.settlements[id].status == s.settlements[id].status
    decreases |writes|
  {
    if writes != [] { StaysBlocked(Apply(s, writes[0]), writes[1..], id); }
  }
}
