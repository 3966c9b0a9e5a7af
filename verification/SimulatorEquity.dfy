/** What equity is: cash and every holding at the middle of its latest quote, in whatever order they are added up. */
module SimulatorEquity {
  import opened Common
  import opened SimulatorModel
  import opened SimulatorTimeline

  /** The quote each holding is marked at: the latest one of its instrument at the instant. */
  ghost predicate Marked(quotes: map<Instrument, seq<Quote>>, holdings: map<string, Holding>, at: int,
                         marks: map<string, Quote>) {
    forall symbol :: symbol in holdings ==>
      symbol in marks
      && IsLatest(SeriesOf(quotes, Instrument(symbol, holdings[symbol].assetClass)), at, Some(marks[symbol]))
  }

  function ValueOf(h: Holding, q: Quote): real {
    h.qty * ((q.bid + q.ask) / 2.0) * h.multiplier
  }

  /** What the named holdings are worth, long ones and short ones apart. */
  function Worth(holdings: map<string, Holding>, marks: map<string, Quote>, names: seq<string>, long: bool): real
    requires forall symbol :: symbol in names ==> symbol in holdings && symbol in marks
  {
    if names == [] then 0.0
    else
      var value := ValueOf(holdings[names[0]], marks[names[0]]);
      (if (value >= 0.0) == long then value else 0.0) + Worth(holdings, marks, names[1..], long)
  }

  ghost predicate Enumerates(names: seq<string>, holdings: map<string, Holding>) {
    && (forall i, j :: 0 <= i < j < |names| ==> names[i] != names[j])
    && (forall symbol :: symbol in names <==> symbol in holdings)
  }

  function Added(quotes: map<Instrument, seq<Quote>>, holdings: map<string, Holding>, at: int, symbol: string,
                 rest: Option<(real, real)>): Option<(real, real)>
    requires symbol in holdings
  {
    Summed(rest, holdings[symbol], Mark(quotes, symbol, holdings[symbol], at))
  }

  /** Any holding may be taken out first. */
  lemma {:induction false} TakenOutFirst(quotes: map<Instrument, seq<Quote>>, holdings: map<string, Holding>, at: int,
                                         symbol: string)
    requires symbol in holdings
    ensures MarketValue(quotes, holdings, at)
         == Added(quotes, holdings, at, symbol, MarketValue(quotes, holdings - {symbol}, at))
    decreases |holdings|
  {
    hide Mark, Summed;
    var one := AnySymbol(holdings);
    Smaller(holdings, one);
    Smaller(holdings, symbol);
    if one != symbol {
      TakenOutFirst(quotes, holdings - {one}, at, symbol);
      TakenOutFirst(quotes, holdings - {symbol}, at, one);
      assert holdings - {one} - {symbol} == holdings - {symbol} - {one};
      var rest := MarketValue(quotes, holdings - {one} - {symbol}, at);
      var a, b := holdings[one], holdings[symbol];
      assert (holdings - {one})[symbol] == b && (holdings - {symbol})[one] == a;
      SummedCommutes(rest, a, Mark(quotes, one, a, at), b, Mark(quotes, symbol, b, at));
      assert MarketValue(quotes, holdings - {one}, at) == Summed(rest, b, Mark(quotes, symbol, b, at));
    }
  }

  lemma SummedCommutes(rest: Option<(real, real)>, a: Holding, m: Option<real>, b: Holding, n: Option<real>)
    ensures Summed(Summed(rest, a, m), b, n) == Summed(Summed(rest, b, n), a, m)
  {
  }

  lemma Smaller(holdings: map<string, Holding>, symbol: string)
    requires symbol in holdings
    ensures |holdings - {symbol}| < |holdings|
  {
    assert (holdings - {symbol}).Keys == holdings.Keys - {symbol};
  }

  lemma {:induction false} MarketValueIs(quotes: map<Instrument, seq<Quote>>, holdings: map<string, Holding>, at: int,
                                         names: seq<string>, marks: map<string, Quote>)
    requires QuotesRising(quotes) && Enumerates(names, holdings) && Marked(quotes, holdings, at, marks)
    ensures MarketValue(quotes, holdings, at)
         == Some((Worth(holdings, marks, names, true), Worth(holdings, marks, names, false)))
    decreases |names|
  {
    hide IsLatest, Mark, Marked, Worth, MarketValue, Summed, ValueOf;
    assert forall s :: s in names ==> s in holdings && s in marks by { FewerMarked(quotes, holdings, at, marks, ""); }
    if names == [] {
      assert holdings == map[];
      NothingHeld(quotes, at, marks);
    } else {
      var symbol := names[0];
      var rest := holdings - {symbol};
      FewerMarked(quotes, holdings, at, marks, symbol);
      OneFewer(names, holdings);
      MarketValueIs(quotes, rest, at, names[1..], marks);
      SameWorth(holdings, rest, marks, names[1..], true);
      SameWorth(holdings, rest, marks, names[1..], false);
      TakenOutFirst(quotes, holdings, at, symbol);
      MarkIs(quotes, holdings, at, marks, symbol);
      OneMoreWorth(holdings, marks, names);
    }
  }

  lemma {:induction false} NothingHeld(quotes: map<Instrument, seq<Quote>>, at: int, marks: map<string, Quote>)
    ensures MarketValue(quotes, map[], at) == Some((0.0, 0.0))
    ensures Worth(map[], marks, [], true) == 0.0 == Worth(map[], marks, [], false)
  {
  }

  lemma OneFewer(names: seq<string>, holdings: map<string, Holding>)
    requires Enumerates(names, holdings) && names != []
    ensures names[0] in holdings && Enumerates(names[1..], holdings - {names[0]})
  {
    assert names == [names[0]] + names[1..];
    assert forall s :: s in names[1..] ==> s != names[0];
  }

  lemma AtMid(h: Holding, q: Quote, mid: real)
    requires mid == (q.bid + q.ask) / 2.0
    ensures MarkedAt(h, mid) == ValueOf(h, q)
  {
  }

  lemma {:induction false} OneMoreWorth(holdings: map<string, Holding>, marks: map<string, Quote>, names: seq<string>)
    requires names != [] && forall symbol :: symbol in names ==> symbol in holdings && symbol in marks
    ensures var h, q := holdings[names[0]], marks[names[0]];
            var rest := (Worth(holdings, marks, names[1..], true), Worth(holdings, marks, names[1..], false));
            Summed(Some(rest), h, Some((q.bid + q.ask) / 2.0))
            == Some((Worth(holdings, marks, names, true), Worth(holdings, marks, names, false)))
  {
    var value := ValueOf(holdings[names[0]], marks[names[0]]);
    assert names[0] in names;
    var rest := (Worth(holdings, marks, names[1..], true), Worth(holdings, marks, names[1..], false));
    assert Worth(holdings, marks, names, true) == (if value >= 0.0 then value else 0.0) + rest.0;
    assert Worth(holdings, marks, names, false) == (if value >= 0.0 then 0.0 else value) + rest.1;
    var q := marks[names[0]];
    AtMid(holdings[names[0]], q, (q.bid + q.ask) / 2.0);
    assert Summed(Some(rest), holdings[names[0]], Some((q.bid + q.ask) / 2.0))
        == Some(if value >= 0.0 then (rest.0 + value, rest.1) else (rest.0, rest.1 + value));
  }

  lemma FewerMarked(quotes: map<Instrument, seq<Quote>>, holdings: map<string, Holding>, at: int,
                    marks: map<string, Quote>, symbol: string)
    requires Marked(quotes, holdings, at, marks)
    ensures Marked(quotes, holdings - {symbol}, at, marks) && forall s :: s in holdings ==> s in marks
  {
  }

  lemma MarkIs(quotes: map<Instrument, seq<Quote>>, holdings: map<string, Holding>, at: int, marks: map<string, Quote>,
               symbol: string)
    requires QuotesRising(quotes) && Marked(quotes, holdings, at, marks) && symbol in holdings
    ensures Mark(quotes, symbol, holdings[symbol], at) == Some((marks[symbol].bid + marks[symbol].ask) / 2.0)
  {
    var k := Instrument(symbol, holdings[symbol].assetClass);
    QuoteAtIsTheLatest(SeriesOf(quotes, k), at);
  }

  lemma {:induction false} SameWorth(a: map<string, Holding>, b: map<string, Holding>, marks: map<string, Quote>,
                                     names: seq<string>, long: bool)
    requires forall symbol :: symbol in names ==> symbol in a && symbol in b && symbol in marks
    requires forall symbol :: symbol in names ==> a[symbol] == b[symbol]
    ensures Worth(a, marks, names, long) == Worth(b, marks, names, long)
  {
    if names != [] {
      assert names[0] in names;
      SameWorth(a, b, marks, names[1..], long);
    }
  }

  /** Equity is the cash in force plus quantity times mid price times multiplier of every holding. */
  lemma {:induction false} EquityIs(c: Core, at: int, names: seq<string>, marks: map<string, Quote>)
    requires c.history != [] && QuotesRising(c.quotes)
    requires var holdings := StateAt(c.history, at).holdings;
             Enumerates(names, holdings) && Marked(c.quotes, holdings, at, marks)
    ensures var s := StateAt(c.history, at);
            && (forall symbol :: symbol in names ==> symbol in s.holdings && symbol in marks)
            && EquityAt(c, at)
               == Some(s.cash + Worth(s.holdings, marks, names, true) + Worth(s.holdings, marks, names, false))
  {
    hide MarketValue, IsLatest;
    MarketValueIs(c.quotes, StateAt(c.history, at).holdings, at, names, marks);
  }

  /** And there is none exactly while something held has no quote yet. */
  lemma EquityNeedsEveryQuote(c: Core, at: int)
    requires c.history != [] && QuotesRising(c.quotes)
    ensures var holdings := StateAt(c.history, at).holdings;
            EquityAt(c, at).None?
            <==> exists symbol :: && symbol in holdings
                                  && var instrument := Instrument(symbol, holdings[symbol].assetClass);
                                     forall q :: q in SeriesOf(c.quotes, instrument) ==> q.at > at
  {
    hide MarketValue;
    var holdings := StateAt(c.history, at).holdings;
    MissingMark(c.quotes, holdings, at);
    forall symbol | symbol in holdings
      ensures Mark(c.quotes, symbol, holdings[symbol], at).None?
              <==> forall q :: q in SeriesOf(c.quotes, Instrument(symbol, holdings[symbol].assetClass)) ==> q.at > at
    {
      QuoteAtIsTheLatest(SeriesOf(c.quotes, Instrument(symbol, holdings[symbol].assetClass)), at);
    }
  }

  lemma {:induction false} MissingMark(quotes: map<Instrument, seq<Quote>>, holdings: map<string, Holding>, at: int)
    ensures MarketValue(quotes, holdings, at).None?
            <==> exists symbol :: symbol in holdings && Mark(quotes, symbol, holdings[symbol], at).None?
    decreases |holdings|
  {
    hide Mark;
    if |holdings| != 0 {
      var one := AnySymbol(holdings);
      Smaller(holdings, one);
      MissingMark(quotes, holdings - {one}, at);
      assert forall symbol :: symbol in holdings <==> symbol == one || symbol in holdings - {one};
    }
  }
}
