/** Regular trading sessions: ordered, non-overlapping (open, close) instants.
    Every query is a bisection, as in the simulator's own session class. */
module TradingSession {
  import opened Common

  datatype Hours = Hours(open: int, close: int)

  datatype Session = Session(hours: seq<Hours>, always: bool)

  /** What the constructor enforces. */
  predicate Valid(s: Session) {
    && (forall i :: 0 <= i < |s.hours| ==> s.hours[i].open < s.hours[i].close)
    && (forall i, j :: 0 <= i < j < |s.hours| ==> s.hours[i].close <= s.hours[j].open)
    && (s.always ==> s.hours == [])
  }

  /** bisect_right: how many leading instants are at or before `at`. */
  function BisectRight(instants: seq<int>, at: int): (i: nat)
    ensures i <= |instants|
    ensures forall k :: 0 <= k < i ==> instants[k] <= at
    ensures i < |instants| ==> at < instants[i]
  {
    if instants == [] || instants[0] > at then 0 else 1 + BisectRight(instants[1..], at)
  }

  function Opens(s: Session): seq<int> {
    seq(|s.hours|, i requires 0 <= i < |s.hours| => s.hours[i].open)
  }

  function Closes(s: Session): seq<int> {
    seq(|s.hours|, i requires 0 <= i < |s.hours| => s.hours[i].close)
  }

  /** Open is inclusive, close exclusive. */
  predicate IsOpen(s: Session, at: int) {
    s.always || (var i := BisectRight(Opens(s), at); i > 0 && at < s.hours[i - 1].close)
  }

  function NextOpen(s: Session, at: int): (r: Option<int>)
    ensures r.Some? ==> r.value > at
  {
    var i := BisectRight(Opens(s), at);
    if s.always || i >= |s.hours| then None else Some(s.hours[i].open)
  }

  function NextClose(s: Session, at: int): (r: Option<int>)
    ensures r.Some? ==> r.value > at
  {
    var i := BisectRight(Closes(s), at);
    if s.always || i >= |s.hours| then None else Some(s.hours[i].close)
  }

  /** Open exactly inside some session, or always. */
  lemma OpenIffInsideASession(s: Session, at: int)
    requires Valid(s)
    ensures IsOpen(s, at) <==> s.always || exists i :: 0 <= i < |s.hours| && s.hours[i].open <= at < s.hours[i].close
  {
    var opens, i := Opens(s), BisectRight(Opens(s), at);
    assert forall k :: 0 <= k < |s.hours| ==> opens[k] == s.hours[k].open;
    assert i < |s.hours| ==> forall k :: i < k < |s.hours| ==> s.hours[i].open < s.hours[k].open;
    assert i > 0 ==> forall k :: 0 <= k < i - 1 ==> s.hours[k].close <= s.hours[i - 1].open;
  }

  /** The next open is the earliest one later than the instant, and there is none exactly when no session opens
      later. */
  lemma NextOpenIsTheFirst(s: Session, at: int)
    requires Valid(s)
    ensures var r := NextOpen(s, at);
            && (r.None? <==> forall k :: 0 <= k < |s.hours| ==> s.hours[k].open <= at)
            && (r.Some? ==> && at < r.value && (exists k :: 0 <= k < |s.hours| && s.hours[k].open == r.value)
                            && forall k :: 0 <= k < |s.hours| && s.hours[k].open > at ==> r.value <= s.hours[k].open)
  {
    var opens, i := Opens(s), BisectRight(Opens(s), at);
    assert forall k :: 0 <= k < |s.hours| ==> opens[k] == s.hours[k].open;
    assert i < |s.hours| ==> forall k :: i < k < |s.hours| ==> s.hours[i].close <= s.hours[k].open;
  }

  /** The next close is the earliest one later than the instant, and there is none exactly when no session closes
      later. */
  lemma NextCloseIsTheFirst(s: Session, at: int)
    requires Valid(s)
    ensures var r := NextClose(s, at);
            && (r.None? <==> forall k :: 0 <= k < |s.hours| ==> s.hours[k].close <= at)
            && (r.Some? ==> && at < r.value && (exists k :: 0 <= k < |s.hours| && s.hours[k].close == r.value)
                            && forall k :: 0 <= k < |s.hours| && s.hours[k].close > at ==> r.value <= s.hours[k].close)
  {
    var closes, i := Closes(s), BisectRight(Closes(s), at);
    assert forall k :: 0 <= k < |s.hours| ==> closes[k] == s.hours[k].close;
    assert i < |s.hours| ==> forall k :: i < k < |s.hours| ==> s.hours[i].close <= s.hours[k].open;
  }
}
