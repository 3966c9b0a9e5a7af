/** Cash still committed to pending buys, and what a new buy may commit on top of it. */
module Funding {
  import opened Common

  datatype AssetClass = Equity | OptionContract | Crypto

  datatype Side = Buy | Sell

  /** `multiplier` is the asset record's contract multiplier, when it carries one. */
  datatype Asset = Asset(assetClass: AssetClass, multiplier: Option<real>)

  /** The frozen funding record's numbers; `None` is missing or unreadable. */
  datatype Block = Block(
    submitted: Option<real>, maxFunding: Option<real>, price: Option<real>, multiplier: Option<real>,
    slippage: Option<real>, fee: Option<real>)

  /** The intent's risk snapshot may hold no record, something that is not a record, or a record. */
  datatype Snapshot = NoRecord | NotARecord | Record(block: Block)

  datatype Intent = Intent(
    id: nat, side: Side, asset: Asset, requested: Option<real>, price: Option<real>, snapshot: Snapshot)

  /** A pending intent and how much of it settlement events have attributed. */
  datatype Remainder = Remainder(intent: Intent, attributed: real)

  /** The errors a caller turns into a refusal. */
  datatype FundingError = QuantityMissing | MultiplierMissing

  datatype Pending = Pending(total: real, mismatches: seq<nat>, unpriced: seq<nat>)

  // ---- the one formula ----

  const CRYPTO_FEE_PCT := 0.25

  function FeePct(c: AssetClass): real {
    if c == Crypto then CRYPTO_FEE_PCT else 0.0
  }

  function Notional(qty: real, price: real, multiplier: real): real {
    qty * price * multiplier
  }

  /** The notional with its slippage allowance, plus the fee on the notional itself. */
  function FundingOn(notional: real, slippage: real, fee: real): real {
    notional * (1.0 + slippage / 100.0) + notional * fee / 100.0
  }

  function FundingFor(qty: real, price: real, multiplier: real, slippage: real, fee: real): real {
    FundingOn(Notional(qty, price, multiplier), slippage, fee)
  }

  function Rate(c: AssetClass, slippage: real): real {
    1.0 + slippage / 100.0 + FeePct(c) / 100.0
  }

  function FundableNotional(available: real, c: AssetClass, slippage: real): real
    requires Rate(c, slippage) != 0.0
  {
    available / Rate(c, slippage)
  }

  lemma MulDiv(a: real, x: real, r: real)
    requires r > 0.0
    ensures x * r <= a <==> x <= a / r
  {
    var d := a / r;
    assert a == d * r;
    if x <= d { MulMono(x, d, r); }
    if x * r <= a && x > d { MulStrict(d, x, r); }
  }

  lemma MulMono(x: real, y: real, r: real)
    requires x <= y && r >= 0.0
    ensures x * r <= y * r
  {
  }

  lemma MulStrict(x: real, y: real, r: real)
    requires x < y && r > 0.0
    ensures x * r < y * r
  {
  }

  /** Sizing against the fundable notional is exactly sizing so that the reservation fits what is available. */
  lemma FundableIsExact(qty: real, price: real, multiplier: real, c: AssetClass, slippage: real, available: real)
    requires slippage >= 0.0
    ensures FundingFor(qty, price, multiplier, slippage, FeePct(c)) <= available
            <==> Notional(qty, price, multiplier) <= FundableNotional(available, c, slippage)
  {
    var n := Notional(qty, price, multiplier);
    assert FundingOn(n, slippage, FeePct(c)) == n * Rate(c, slippage);
    MulDiv(available, n, Rate(c, slippage));
  }

  // ---- the frozen record ----

  /** A number above zero, or at zero where that is allowed. */
  function Frozen(raw: Option<real>, allowZero: bool): Option<real> {
    if raw.None? || raw.value < 0.0 || (raw.value == 0.0 && !allowZero) then None else raw
  }

  /** One where nothing sets it; an option must set it. */
  function MultiplierOf(asset: Asset): Result<real, FundingError> {
    if asset.multiplier.Some? then Ok(asset.multiplier.value)
    else if asset.assetClass == OptionContract then Err(MultiplierMissing)
    else Ok(1.0)
  }

  /** The funding the record proves was committed, or nothing. */
  function FrozenMaxFunding(b: Block, submitted: real, i: Intent): Result<Option<real>, FundingError> {
    var frozen, price, multiplier := Frozen(b.maxFunding, false), Frozen(b.price, false), Frozen(b.multiplier, false);
    var slippage, fee := Frozen(b.slippage, true), Frozen(b.fee, true);
    if frozen.None? || price.None? || multiplier.None? || slippage.None? || fee.None? then Ok(None)
    else if price != i.price then Ok(None)
    else match MultiplierOf(i.asset)
      case Err(e) => Err(e)
      case Ok(m) =>
        if multiplier.value != m then Ok(None)
        else if FundingFor(submitted, price.value, m, slippage.value, fee.value) != frozen.value then Ok(None)
        else Ok(frozen)
  }

  // ---- what one pending intent commits ----

  /** `whole` for `part` of `of` units. */
  function Share(whole: real, part: real, of: real): real
    requires of != 0.0
  {
    whole * part / of
  }

  datatype Line = Line(amount: real, mismatch: bool, unpriced: bool)

  function Recorded(s: Snapshot): Option<real> {
    if s.Record? then Frozen(s.block.submitted, false) else None
  }

  function LineOf(r: Remainder, limits: AssetClass -> real): Result<Line, FundingError> {
    var i := r.intent;
    if i.requested.None? then Err(QuantityMissing)
    else if i.side != Buy then Ok(Line(0.0, false, false))
    else
      var recorded := Recorded(i.snapshot);
      if recorded.None? && !i.snapshot.NoRecord? then Ok(Line(0.0, false, true))
      else
        var mismatch := recorded.Some? && recorded != i.requested;
        var submitted := if mismatch then Max(i.requested.value, recorded.value) else i.requested.value;
        var open := submitted - r.attributed;
        if open <= 0.0 then Ok(Line(0.0, mismatch, false))
        else if recorded.None? then Ok(Line(0.0, mismatch, true))
        else match FrozenMaxFunding(i.snapshot.block, recorded.value, i)
          case Err(e) => Err(e)
          case Ok(frozen) =>
            if frozen.None? || i.price.None? then Ok(Line(0.0, mismatch, true))
            else match MultiplierOf(i.asset)
              case Err(e) => Err(e)
              case Ok(m) =>
                var current := FundingFor(open, i.price.value, m, limits(i.asset.assetClass),
                  FeePct(i.asset.assetClass));
                Ok(Line(Max(Share(frozen.value, open, recorded.value), current), mismatch, false))
  }

  // ---- what a record proves and what one intent reserves, number by number ----

  predicate Positive(x: Option<real>) { x.Some? && x.value > 0.0 }

  predicate NotNegative(x: Option<real>) { x.Some? && x.value >= 0.0 }

  /** Every number of the record is there, and its price is the intent's. */
  predicate Complete(b: Block, i: Intent) {
    && Positive(b.maxFunding) && Positive(b.price) && Positive(b.multiplier)
    && NotNegative(b.slippage) && NotNegative(b.fee) && b.price == i.price
  }

  predicate NoMultiplier(a: Asset) { a.multiplier.None? && a.assetClass == OptionContract }

  /** The record proves what was committed: its multiplier is the asset's, one where the asset sets none, and its
      numbers give its funding exactly. */
  predicate Proves(b: Block, submitted: real, i: Intent) {
    && Complete(b, i) && !NoMultiplier(i.asset)
    && (i.asset.multiplier.Some? ==> b.multiplier == i.asset.multiplier)
    && (i.asset.multiplier.None? ==> b.multiplier == Some(1.0))
    && var n := submitted * b.price.value * b.multiplier.value;
       b.maxFunding.value == n * (1.0 + b.slippage.value / 100.0) + n * b.fee.value / 100.0
  }

  /** A record is accepted exactly when it proves its funding; only a complete one for an option without a multiplier is
      an error. */
  lemma AcceptedWhenProven(b: Block, submitted: real, i: Intent)
    ensures var r := FrozenMaxFunding(b, submitted, i);
            && (r.Err? <==> Complete(b, i) && NoMultiplier(i.asset))
            && (r.Err? ==> r.error == MultiplierMissing)
            && (r.Ok? && r.value.Some? <==> Proves(b, submitted, i))
            && (r.Ok? && r.value.Some? ==> r.value == b.maxFunding)
  {
    hide FundingFor;
    if Complete(b, i) {
      FundingSpelled(submitted, b.price.value, b.multiplier.value, b.slippage.value, b.fee.value,
                     submitted * b.price.value * b.multiplier.value);
    }
  }

  lemma FundingSpelled(qty: real, price: real, multiplier: real, slippage: real, fee: real, n: real)
    requires n == qty * price * multiplier
    ensures FundingFor(qty, price, multiplier, slippage, fee) == n * (1.0 + slippage / 100.0) + n * fee / 100.0
  {
  }

  /** The buy carries a record with a usable submitted quantity. */
  predicate Submitted(i: Intent, x: real) {
    i.snapshot.Record? && i.snapshot.block.submitted == Some(x) && x > 0.0
  }

  /** Sells reserve nothing. A buy whose record says nothing usable is unpriced, and without a record as long as
      something is not attributed. */
  lemma UnrecordedLine(r: Remainder, limits: AssetClass -> real)
    requires r.intent.side == Buy ==> forall x :: !Submitted(r.intent, x)
    ensures LineOf(r, limits) ==
            if r.intent.requested.None? then Err(QuantityMissing)
            else if r.intent.side == Sell then Ok(Line(0.0, false, false))
            else Ok(Line(0.0, false, !r.intent.snapshot.NoRecord? || r.attributed < r.intent.requested.value))
  {
    if r.intent.side == Buy && r.intent.snapshot.Record? && r.intent.snapshot.block.submitted.Some? {
      assert !Submitted(r.intent, r.intent.snapshot.block.submitted.value);
    }
  }

  /** What a recorded buy with something left to attribute reserves: no less than its part of the frozen funding and no
      less than its funding at the current profile, and one of the two. */
  predicate ReservedFor(amount: real, b: Block, submitted: real, left: real, c: AssetClass, slippage: real)
    requires b.maxFunding.Some? && b.price.Some? && b.multiplier.Some? && submitted != 0.0
  {
    var frozen := b.maxFunding.value * left / submitted;
    var n := left * b.price.value * b.multiplier.value;
    var current := n * (1.0 + slippage / 100.0) + n * (if c == Crypto then 0.25 else 0.0) / 100.0;
    amount >= frozen && amount >= current && (amount == frozen || amount == current)
  }

  /** A buy with a usable submitted quantity mismatches when that is not the requested one, and reserves for the larger
      of the two less what is attributed; where the record proves nothing that remainder is unpriced. */
  lemma RecordedLine(r: Remainder, submitted: real, limits: AssetClass -> real)
    requires r.intent.side == Buy && r.intent.requested.Some? && Submitted(r.intent, submitted)
    ensures var i, b, line := r.intent, r.intent.snapshot.block, LineOf(r, limits);
            var left := (if submitted > i.requested.value then submitted else i.requested.value) - r.attributed;
            && (line.Err? <==> left > 0.0 && Complete(b, i) && NoMultiplier(i.asset))
            && (line.Err? ==> line.error == MultiplierMissing)
            && (line.Ok? ==>
                  && (line.value.mismatch <==> submitted != i.requested.value)
                  && (line.value.unpriced <==> left > 0.0 && !Proves(b, submitted, i))
                  && (left <= 0.0 || line.value.unpriced ==> line.value.amount == 0.0)
                  && (left > 0.0 && Proves(b, submitted, i) ==>
                        ReservedFor(line.value.amount, b, submitted, left, i.asset.assetClass,
                                    limits(i.asset.assetClass))))
  {
    hide FrozenMaxFunding, Proves;
    AcceptedWhenProven(r.intent.snapshot.block, submitted, r.intent);
    if Proves(r.intent.snapshot.block, submitted, r.intent) {
      MultiplierProven(r.intent.snapshot.block, submitted, r.intent);
    }
  }

  lemma MultiplierProven(b: Block, submitted: real, i: Intent)
    requires Proves(b, submitted, i)
    ensures b.price.Some? && b.price == i.price && b.multiplier.Some? && MultiplierOf(i.asset) == Ok(b.multiplier.value)
    ensures b.maxFunding.Some?
  {
  }

  // ---- all pending intents ----

  function PendingOver(rs: seq<Remainder>, limits: AssetClass -> real): Result<Pending, FundingError> {
    if rs == [] then Ok(Pending(0.0, [], []))
    else
      var n := |rs| - 1;
      match PendingOver(rs[..n], limits)
      case Err(e) => Err(e)
      case Ok(p) =>
        match LineOf(rs[n], limits)
        case Err(e) => Err(e)
        case Ok(line) =>
          Ok(Pending(p.total + line.amount, if line.mismatch then p.mismatches + [rs[n].intent.id] else p.mismatches,
                     if line.unpriced then p.unpriced + [rs[n].intent.id] else p.unpriced))
  }

  /** Every pending intent must carry a quantity before any is priced. */
  predicate AllSized(rs: seq<Remainder>) {
    forall r :: r in rs ==> r.intent.requested.Some?
  }

  function PendingFunding(rs: seq<Remainder>, limits: AssetClass -> real): Result<Pending, FundingError> {
    if !AllSized(rs) then Err(QuantityMissing) else PendingOver(rs, limits)
  }

  method PendingBuyFunding(rs: seq<Remainder>, limits: AssetClass -> real) returns (r: Result<Pending, FundingError>)
    ensures r == PendingFunding(rs, limits)
  {
    hide FrozenMaxFunding, FundingFor, Share;
    if !AllSized(rs) { return Err(QuantityMissing); }
    var total, mismatches: seq<nat>, unpriced: seq<nat> := 0.0, [], [];
    for n := 0 to |rs|
      invariant PendingOver(rs[..n], limits) == Ok(Pending(total, mismatches, unpriced))
    {
      assert rs[..n + 1][..n] == rs[..n] && rs[n] in rs;
      var i := rs[n].intent;
      ghost var line := LineOf(rs[n], limits);
      if line.Err? { ErrorSpreads(rs, n + 1, limits); }
      if i.side != Buy { continue; }
      var field := i.requested.value;
      var recorded := Recorded(i.snapshot);
      if recorded.None? && !i.snapshot.NoRecord? {
        unpriced := unpriced + [i.id];
        continue;
      }
      var submitted := field;
      if recorded.Some? && recorded.value != field {
        mismatches := mismatches + [i.id];
        submitted := Max(field, recorded.value);
      }
      var open := submitted - rs[n].attributed;
      if open <= 0.0 { continue; }
      if recorded.None? {
        unpriced := unpriced + [i.id];
        continue;
      }
      var frozen := FrozenMaxFunding(i.snapshot.block, recorded.value, i);
      if frozen.Err? { assert rs[..|rs|] == rs; return Err(frozen.error); }
      if frozen.value.None? || i.price.None? {
        unpriced := unpriced + [i.id];
        continue;
      }
      var m := MultiplierOf(i.asset);
      if m.Err? { assert rs[..|rs|] == rs; return Err(m.error); }
      var current := FundingFor(open, i.price.value, m.value, limits(i.asset.assetClass), FeePct(i.asset.assetClass));
      total := total + Max(Share(frozen.value.value, open, recorded.value), current);
    }
    assert rs[..|rs|] == rs;
    r := Ok(Pending(total, mismatches, unpriced));
  }

  lemma {:induction false} ErrorSpreads(rs: seq<Remainder>, n: nat, limits: AssetClass -> real)
    requires n <= |rs| && PendingOver(rs[..n], limits).Err?
    ensures PendingOver(rs, limits) == PendingOver(rs[..n], limits)
    decreases |rs| - n
  {
    if n == |rs| {
      assert rs[..n] == rs;
    } else {
      assert rs[..n + 1][..n] == rs[..n];
      ErrorSpreads(rs, n + 1, limits);
    }
  }

  // ---- what is available ----

  /** The account as it was read; `None` is missing. */
  datatype Account = Account(cash: Option<real>, buyingPower: Option<real>, nonMarginablePower: Option<real>)

  /** Nothing when an input is missing or negative. */
  function FundingAvailable(account: Account, c: AssetClass, pending: real): Option<real> {
    var power := if c == Crypto then account.nonMarginablePower else account.buyingPower;
    var cash := account.cash;
    if cash.None? || power.None? || cash.value < 0.0 || power.value < 0.0 || pending < 0.0 then None
    else Some(Min(cash.value - pending, power.value - pending))
  }

  predicate Missing(input: Option<real>) { input.None? || input.value < 0.0 }

  /** Nothing is available exactly when the pending total is negative or the cash or the class's buying power is missing
      or negative; otherwise an amount is available exactly when together with what is pending it fits both. */
  lemma AvailableIsTheGreatest(account: Account, c: AssetClass, pending: real, x: real)
    ensures FundingAvailable(account, c, pending).None?
            <==> || pending < 0.0 || Missing(account.cash)
                 || (c == Crypto && Missing(account.nonMarginablePower))
                 || (c != Crypto && Missing(account.buyingPower))
    ensures FundingAvailable(account, c, pending).Some? ==>
              (x <= FundingAvailable(account, c, pending).value
               <==> && x + pending <= account.cash.value
                    && (c == Crypto ==> x + pending <= account.nonMarginablePower.value)
                    && (c != Crypto ==> x + pending <= account.buyingPower.value))
  {
  }
}
