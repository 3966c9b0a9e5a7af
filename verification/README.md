# TradePulse: a verified model of its evidence-bound core

TradePulse trades on evidence that lags, arrives in pages, and may be cut off by a crash, and must still never sell more
than it holds or spend more than it has. This project models the parts that carry that burden and proves what they are for.

- **The simulated exchange** (`Simulator*.dfy`, `SimulatedBroker.dfy`, `TradingSession.dfy`). A heap of timed events applied by
  whichever read comes next; orders; limit fills parked until a quote; fee batches; a history of cash and holdings. The
  functions of `SimulatorModel.dfy` and `SimulatorCommands.dfy` say what one event and one call do; the class in
  `SimulatedBroker.dfy` does the same in place and is proved equal to them; the laws are proved over whole scripts of calls.
  `SimulatorFills.dfy` and `SimulatorCalls.dfy` say what every event and every call means in terms of the market, the order
  and the books alone, `SimulatorTrades.dfy` carries that over whole scripts, `SimulatorEquity.dfy` says what equity is.
  `SimulatorSwaps`, `SimulatorViews`, `SimulatorEffects`, `SimulatorPushes` and the three `SimulatorTie*` files prove what
  polling may change: only the order of same-instant events on different symbols.
- **Sell authorization and buy funding** (`Sellable*.dfy`, `Funding*.dfy`). The two bounds, the pending total, and state
  machines of everything that can happen between the reads they are computed from; what is authorized never exceeds
  what is there, and when all of it is authorized is said exactly.
- **Complete paging** (`OpenOrderScan.dfy`, `OpenOrderCompleteness.dfy`, `OrderCensus.dfy`, `ActivityPaging.dfy`). The loops as
  methods, when they answer at all for an arbitrary server, and their exact behaviour against an honest one.
- **Fill attribution** (`AttributionModel.dfy`, `AttributionRuns.dfy`, `FillAttribution.dfy`). A call as the list of its
  writes, a crash as a prefix of it, and a class that performs the writes one by one.
- **Backtest walkers** (`ExitWalkers.dfy`, `Ladder.dfy`), **fee allocation** (`FeeSplit.dfy`), **rank correlation**
  (`Ranks.dfy`) and **the account lease** (`Lease.dfy`).

Throughout, Decimal is the exact reals (Python's 28-digit context rounding is not modelled) and time is an integer number of
ticks: microseconds where a client truncates them, nanoseconds at the paged server. A raised exception is a returned value
that names its cause. Where a documented law is false of the code, a lemma gives the input and the law is stated with its
condition: see `TiedQuotesNotPollIndependent` with `ReadsOnlyReorder`, `QuoteChangesTheReadInstant`, `SeedRewritesTheStart`,
`EarlyFeeBreaksOrder`, `ClaimsAStranger`, `PartFillIsWithheld` with `FreePositionIsOffered`, `AttributedBetweenReads` with
`StillReservedIsExact` and `LateAttributionIsAllowed`, `StaleSnapshotReopens`, `TargetAndMilestoneInLockstep` and
`ReplacedFileHasTwoHolders`.

Verify with `dafny verify dfyconfig.toml`.

## Model

| member | source | states |
|---|---|---|
| SimulatorPolling.ReadsNeverMatter | tradepulse/broker/simulated.py:10-16 | Poll independence, exactly: for any script of calls, errors and faults included, whose quotes come after the last inserted read and are untied (nothing waits for the quote, or nothing else due can be queued for exactly its instant), running with or without its reads leaves the identical timeline (orders, cash and holdings history, activities, queue, parked fills), the same answers, or the same error |
| SimulatorPolling.PollIndependence | tradepulse/broker/simulated.py:1014-1038 | The induction behind it, from any two worlds of which one has been read further than the other |
| SimulatorPolling.DrainTwice | tradepulse/broker/simulated.py:1014-1022 | Materializing at t1 and then at a later t2 is materializing at t2, errors included: reads are idempotent and compose |
| SimulatorPolling.DrainCommutes | tradepulse/broker/simulated.py:694-713 | Reading and then scripting a later, untied quote is scripting it and then reading: a parked fill that is re-armed and a queued fill that finds the quote itself end alike |
| SimulatorTiedRuns.ReadsOnlyReorder | tradepulse/broker/simulated.py:10-16 | Poll independence up to ties, over whole scripts with nonnegative fee delays and any number of instruments quoted for one instant: with its reads or without, a script whose quotes are fair (nothing that moves the quote's own symbol can be queued for exactly its instant) fails in both or in neither, gives the same answers, and a last read finds the same cash and holdings history, orders, quotes, parked fills, batches and count of draws, the same activities at the same instants but for draw numbers and their order within an instant, and queues that differ only by swaps of same-instant events on different symbols |
| SimulatorTiedRuns.PollTied | tradepulse/broker/simulated.py:1014-1038 | The induction behind it, from any two worlds of which one has been read further than the other |
| SimulatorTiedRuns.SafeIsFair | tradepulse/broker/simulated.py:694-713 | Every script without ties is fair, so the law up to ties covers all the exact law covers |
| SimulatorTiedRuns.StepSteadfast | tradepulse/broker/simulated.py:1298-1415 | Every call keeps its hypotheses: the timeline in order, sound orders, postings queued only for closed batches, fills parked only on their own instrument |
| SimulatorTiedRuns.FreshSteadfast | tradepulse/broker/simulated.py:556-578 | A new simulator satisfies them |
| SimulatorTiedQuotes.ReadEither | tradepulse/broker/simulated.py:694-713 | Reading and then scripting a later fair quote, or scripting it and then reading, fails in both or in neither and ends the same up to ties, whatever other symbols are quoted or charged at that instant |
| SimulatorTiedQuotes.DistinctSymbolsAreFair | tradepulse/broker/simulated.py:712-713 | With one instrument to a symbol and no fee in coins every quote is fair |
| SimulatorTies.DrainTied | tradepulse/broker/simulated.py:1014-1022 | Materializing two timelines that agree up to ties fails for both or leaves them agreeing up to ties |
| SimulatorTies.EitherOrder | tradepulse/broker/simulated.py:1047-1091 | Two events due at one instant that have nothing to do with each other (limit fills on different symbols, fee postings), applied in either order, both happen with the same result up to ties, or one of them breaks the script in both orders |
| SimulatorEffects.EventsCommute | tradepulse/broker/simulated.py:1047-1091 | The diamond: in either order the two leave equal history, orders, parked fills, batches, and as multisets equal queue and activities, or fail in both |
| SimulatorViews.MovesCommute | tradepulse/broker/simulated.py:1102-1125 | Cash adds up and holdings of different symbols do not meet, so two bookings at the last instant give one record in either order |
| SimulatorViews.AllEntriesCommute | tradepulse/broker/simulated.py:1185-1202 | What two events enter in the fee books (charges, new postings, a batch being posted) leaves the same books in either order, amounts added up, or fails in both |
| SimulatorViews.SaleNeedsItsPurchase | tradepulse/broker/simulated.py:1110-1112 | Why one symbol's events keep their order: bought and then sold books if and only if the sum covers the sale, sold first if and only if the holding alone does |
| SimulatorViews.CoinFeeNeedsItsPurchase | tradepulse/broker/simulated.py:1239-1252 | Likewise a fee in the coin: after the purchase it always books, before it if and only if the coin already held covers it |
| SimulatorViews.CoinFeeMovesTheEntryPrice | tradepulse/broker/simulated.py:1118-1120 | Even where both orders book, they agree if and only if the coin was held at the purchase price: the fee changes the weight of what was held |
| SimulatorTiedQuotes.CoinTieReorders | tradepulse/broker/simulated.py:1093-1100 | An unfair quote does break the law: for every waiting order of a coin and purchase of it whose fee posts at the quote, one read between them and the quote decides which of order and fee comes first, and no swap of events on different symbols undoes it |
| SimulatorLimits.TiedQuotesNotPollIndependent | tradepulse/broker/simulated.py:712-713 | What ties cost: two instruments quoted for one instant, and one extra read decides which of two waiting orders fills first, because a re-armed fill draws a new sequence number |
| SimulatorTimeline.ObservedPastIsImmutable | tradepulse/broker/simulated.py:15-16 | Over every script with nonnegative fee delays: once a read has observed t, the recorded state, every quote and the equity at every instant since the start and before t stay what they were, history times stay strictly increasing, and nothing queued precedes the last read |
| SimulatorTimeline.DrainInOrder | tradepulse/broker/simulated.py:1014-1022 | Applying due events keeps the timeline in order, rewrites nothing before the last read, and scripts no quote |
| SimulatorTimeline.FreshTimeline | tradepulse/broker/simulated.py:556-578 | A new simulator satisfies the hypothesis of the immutability law |
| SimulatorEquity.EquityIs | tradepulse/broker/simulated.py:797-813 | Equity is cash plus quantity times mid price times multiplier of every holding, marked at the latest quote, in whatever order they are added |
| SimulatorEquity.EquityNeedsEveryQuote | tradepulse/broker/simulated.py:797-801 | And there is none exactly while something held has no quote yet |
| SimulatorTimeline.EarlyFeeBreaksOrder | tradepulse/broker/simulated.py:231-240 | Posting delays are not checked: a fill keeps the timeline in order if and only if its own fee posts no earlier than the fill |
| SimulatorLimits.EarlyFeeLosesTheFill | tradepulse/broker/simulated.py:1239-1252 | What a negative delay does to the books: once the fee that precedes its fill has posted, cash and holdings at every instant from the fill on are those of before the fill, less the fee |
| SimulatorLimits.EarlyFeeLosesTheRead | tradepulse/broker/simulated.py:1014-1022 | What a read then shows: for every option purchase alone in the queue whose fee would precede it, the order is filled and the account at every instant from the fill on has only paid the fee |
| SimulatorLimits.QuoteChangesTheReadInstant | tradepulse/broker/simulated.py:705-706 | An accepted quote changes the quote at the instant already read if and only if it is scripted for that very instant; the guard refuses only earlier ones, where the module documentation (lines 15-16) says "at or before" |
| SimulatorLimits.EarlierThanTheStartIsRewritten | tradepulse/broker/simulated.py:773-775 | Before the first recorded instant the past is not immutable: a concrete script whose transfer at the opening instant changes the state answered for an earlier one |
| SimulatorLimits.RecordRewritesTheStart | tradepulse/broker/simulated.py:767-775 | Recording changes what is answered before the start if and only if it replaces the only state there is by a different one |
| SimulatorLimits.SeedRewritesTheStart | tradepulse/broker/simulated.py:742-775 | For the public call, with nonnegative fee delays and once everything due has happened: an accepted transfer changes what is answered before the start if and only if it arrives at the opening instant and nothing has been recorded since |
| SimulatorOrders.RunKeepsOrderInvariants | tradepulse/broker/simulated.py:1256-1278 | Over every script, OVERFILL and ACCEPT_OVERSELL included: the order invariants hold after every call that does not raise a script error, fills only grow, a terminal order is reported unchanged for ever, `_check_invariants` never raises, and no event meets an unknown order or a missing fee scenario |
| SimulatorOrders.StepOk | tradepulse/broker/simulated.py:1298-1415 | One public call keeps every order invariant and can fail only through the script |
| SimulatorOrders.FreshOk | tradepulse/broker/simulated.py:556-578 | A new simulator satisfies them |
| SimulatorLedger.RunConserves | tradepulse/broker/simulated.py:1102-1125 | Conservation over every script, with nonnegative fee delays: at every instant since the start, cash is the opening cash less what every buy cost, plus what every sell brought, plus every posted fee, and every holding is its seeds plus what was bought less what was sold plus coin fees, as the activities up to that instant say |
| SimulatorLedger.DrainBalanced | tradepulse/broker/simulated.py:1014-1022 | With nonnegative fee delays, applying any number of due events keeps those two equations |
| SimulatorLedger.FreshBalanced | tradepulse/broker/simulated.py:556-561 | A new simulator starts balanced |
| SimulatorFees.RunAccountsForEveryFee | tradepulse/broker/simulated.py:1129-1202 | Over every script: each batch holds exactly what its fills owe it, amount and trade count; it has one queued posting until it is posted and none after; a posted batch was charged once, at its rounded sum |
| SimulatorFees.AccrueAccounted | tradepulse/broker/simulated.py:1185-1202 | A charge enters exactly one batch, and a posted batch never accrues again |
| SimulatorFees.PostFees | tradepulse/broker/simulated.py:1204-1237 | A due batch was not posted before; posting charges its rounded sum once and leaves nothing queued for it |
| SimulatorTrades.RunTradesFairly | tradepulse/broker/simulated.py:1047-1091 | Over every script, faults included: every FILL row trades at a positive price within its order's limit, at the ask (buy) or bid (sell) of a quote in force at that instant which had reached the limit, or at a price an accepted script names for that order; each row's cumulative and open quantity and status are what its order had traded up to it; and each order's filled quantity and value are the sums of its rows |
| SimulatorTrades.StepFair | tradepulse/broker/simulated.py:1298-1415 | One public call keeps all of that, a new quote included |
| SimulatorTrades.FreshFair | tradepulse/broker/simulated.py:556-578 | A new simulator satisfies the hypothesis |
| SimulatorTrades.UnscriptedRowsTradeAtTheTouch | tradepulse/broker/simulated.py:1047-1060 | From a new simulator on: a row of an order no price was scripted for trades at exactly the ask a buy pays or the bid a sell gets, and a row of a limit order is within the limit on a market that reached it |
| SimulatorTrades.OrdersAreTheirRows | tradepulse/broker/simulated.py:1072-1078 | An order's filled quantity and average price are the sum and the weighted average of its FILL rows, and it is filled exactly when they cover it |
| SimulatorFills.FillIs | tradepulse/broker/simulated.py:1047-1091 | One due fill, given the latest quote alone: it waits exactly when a limit buy's ask is above, or a limit sell's bid below, its limit; it breaks the script for a price beyond the limit, no usable price, a quantity not open, an uncovered sell or a posted batch; otherwise it trades at the scripted price or else at the ask for a buy and the bid for a sell, and order, FILL row, cash and position move accordingly |
| SimulatorFills.UnreachedWaits | tradepulse/broker/simulated.py:1093-1100 | A fill that waits is queued at the first later quote, or parked when there is none, and changes nothing else |
| SimulatorFills.ExecuteTrades | tradepulse/broker/simulated.py:1066-1091 | What a trade leaves: quantity, value, average and status of the order; one FILL row visible after the lag; cash down by a buy's cost or up by a sell's proceeds from that instant on |
| SimulatorFills.HoldingsMoved | tradepulse/broker/simulated.py:1113-1124 | The traded position: gone at zero, at the fill's price where it opens or changes sides, at the average of both where it grows, at its old price where it shrinks; no other position moves |
| SimulatorFills.OrderEventIs | tradepulse/broker/simulated.py:1024-1045 | Starts, scripted ends and expiries stamp exactly their order; events of an order that is over lapse |
| SimulatorFills.ChargesAre | tradepulse/broker/simulated.py:1129-1163 | The fee table: which batch a fill owes how much, on which proceeds and units, by product, side and kind |
| SimulatorFills.FillOwes | tradepulse/broker/simulated.py:1129-1202 | After a fill each batch it owes to holds its charge and has its posting queued, and its own clearing or coin fee is queued after its delay; it fails exactly when such a batch is posted or due |
| SimulatorFills.FeeEventIs | tradepulse/broker/simulated.py:1204-1252 | A row moves its cash and coin or fails for more coin than is held; a batch is marked posted and takes its rounded sum from cash unless that is nothing |
| SimulatorHoldings.ScriptErrorsUnreachable | tradepulse/broker/simulated.py:1063-1065 | In every fault-free script with long seeds, nonnegative fee delays and no coin fees: holdings cover what open sells may still fill, the quantity queued or parked for an order is at most its remainder, and the oversell, overfill and fee-exceeds-position errors never happen |
| SimulatorHoldings.FillBooks | tradepulse/broker/simulated.py:1102-1125 | A fault-free fill within the remainder always books, and what is then held still covers every open sell |
| SimulatorHoldings.ExecuteSolid | tradepulse/broker/simulated.py:1066-1091 | A planned fill keeps all of that, and can only fail on a posted batch |
| SimulatorHoldings.FreshSound | tradepulse/broker/simulated.py:556-561 | A new simulator satisfies the hypothesis |
| SimulatorModel.ApplyShrinks | tradepulse/broker/simulated.py:1014-1038 | Materializing terminates: every applied event leaves strictly less work, counting the later quotes a waiting fill may still be re-armed at and the fee postings a fill may queue |
| SimulatorModel.LaterShrinks | tradepulse/broker/simulated.py:1093-1100 | Re-arming at a later quote leaves strictly fewer quotes ahead |
| SimulatorModel.PlanFill | tradepulse/broker/simulated.py:1047-1065 | A taken fill is for a positive quantity still open at a positive price; when it is taken and at what price is stated by SimulatorFills.PlanIs |
| SimulatorFills.PlanIs | tradepulse/broker/simulated.py:1048-1065 | The plan from the latest quote alone: waits exactly when the limit is not reached, refuses with each error exactly where it applies, and otherwise takes the scripted or open quantity at the scripted price or the touch |
| SimulatorModel.Drain | tradepulse/broker/simulated.py:1014-1019 | After a read nothing due is left in the queue |
| SimulatedBroker.SimulatedBroker.constructor | tradepulse/broker/simulated.py:556-570 | The new object is the fresh timeline |
| SimulatedBroker.SimulatedBroker.Push | tradepulse/broker/simulated.py:1010-1012 | The heap, read in (instant, sequence number) order, gains the event behind everything that is not later |
| SimulatedBroker.SlottedInOrder | tradepulse/broker/simulated.py:1010-1012 | With an ever-larger sequence number, heap order is stable insertion by instant |
| SimulatedBroker.SimulatedBroker.LeastIndex | tradepulse/broker/simulated.py:1017-1018 | Finds an entry that no other precedes |
| SimulatedBroker.HeadIsLeast | tradepulse/broker/simulated.py:1017-1018 | That entry is the head of the timeline |
| SimulatedBroker.SimulatedBroker.Pop | tradepulse/broker/simulated.py:1018 | Takes exactly the head of the timeline out of the heap |
| SimulatedBroker.SimulatedBroker.QuoteAt | tradepulse/broker/simulated.py:777-786 | The bisection returns the latest quote: none exactly when every quote of the series is later, otherwise a quote of the series that is not later and with no other up to the instant after it |
| SimulatorModel.QuoteAtIsTheLatest | tradepulse/broker/simulated.py:777-786 | On a rising series the quote the timeline uses is that latest one, and no other answer is |
| SimulatedBroker.SimulatedBroker.Record | tradepulse/broker/simulated.py:767-771 | Replaces the last state at the same instant, otherwise appends |
| SimulatedBroker.SimulatedBroker.BookFill | tradepulse/broker/simulated.py:1102-1125 | The in-place booking is the booking the conservation law is about, oversell error included |
| SimulatedBroker.SimulatedBroker.BookFee | tradepulse/broker/simulated.py:1239-1252 | Likewise for a fee, with the exceeded-position error |
| SimulatedBroker.SimulatedBroker.Batch | tradepulse/broker/simulated.py:1185-1202 | Adds one charge to its batch, creating it with its one posting event; a charge after posting is an error |
| SimulatedBroker.AccrueFirst | tradepulse/broker/simulated.py:1129-1160 | Accruing a list of charges is accruing the first and then the rest, so the branch-by-branch method and the list agree |
| SimulatedBroker.SimulatedBroker.AccrueFees | tradepulse/broker/simulated.py:1129-1183 | The fees of one fill by asset class and side are exactly its listed charges and its own fee |
| SimulatedBroker.SimulatedBroker.PostFee | tradepulse/broker/simulated.py:1204-1237 | Posting a batch or a row does to the object what it does to the timeline |
| SimulatedBroker.SimulatedBroker.Finish | tradepulse/broker/simulated.py:1040-1045 | One order ends with its stamp; every other order is untouched |
| SimulatedBroker.SimulatedBroker.Rearm | tradepulse/broker/simulated.py:1093-1100 | Queues the fill at the next quote, or parks it |
| SimulatedBroker.SimulatedBroker.Fill | tradepulse/broker/simulated.py:1047-1065 | One fill in place equals the timeline's fill event, whose price, waiting and errors SimulatorFills.FillIs states |
| SimulatedBroker.SimulatedBroker.Apply | tradepulse/broker/simulated.py:1024-1038 | One event; nothing changes a terminal order |
| SimulatedBroker.SimulatedBroker.CheckInvariants | tradepulse/broker/simulated.py:1256-1278 | The loop raises exactly when some order breaks one of the seven conditions, and otherwise remembers every order |
| SimulatedBroker.SimulatedBroker.Materialize | tradepulse/broker/simulated.py:1014-1022 | The loop over the heap is the drain of the timeline, then the check |
| SimulatedBroker.SimulatedBroker.SetQuote | tradepulse/broker/simulated.py:694-713 | Accepts exactly the allowed quotes, appends, and re-arms what was parked |
| SimulatedBroker.SimulatedBroker.ScheduleFills | tradepulse/broker/simulated.py:979-1003 | Accepts exactly the allowed scripts, once per client id |
| SimulatedBroker.SimulatedBroker.OverfillNext | tradepulse/broker/simulated.py:649-652 | Arms the next order placed |
| SimulatedBroker.SimulatedBroker.SeedPosition | tradepulse/broker/simulated.py:742-763 | A transfer in is recorded from now on, after what is due, and only for a symbol that is not held |
| SimulatedBroker.SimulatedBroker.CommittedTo | tradepulse/broker/simulated.py:1327-1328 | Sums what open sells of the symbol have not filled |
| SimulatedBroker.SimulatedBroker.Place | tradepulse/broker/simulated.py:1308-1377 | Refuses in the same order and with the same codes, discards a script that cannot hold, or books the order and queues its events |
| SimulatedBroker.SimulatedBroker.Cancel | tradepulse/broker/simulated.py:1403-1415 | 404, 422 or 204 on a terminal order, otherwise canceled now, and checked |
| SimulatedBroker.SimulatedBroker.GetOrder | tradepulse/broker/simulated.py:1385-1388 | A read applies what is due and then only looks |
| SimulatorCalls.PlaceIs | tradepulse/broker/simulated.py:1308-1377 | What placing an order answers, in the source's order of checks, each condition written out, and what it changes: a refusal nothing (a refused script is dropped), an acceptance one order with its start, scripted or latent fill, scripted end and expiry queued at their instants |
| SimulatorCalls.CancelIs | tradepulse/broker/simulated.py:1403-1415 | 404, 422 or 204 exactly where they apply; otherwise the one order is canceled and nothing else moves |
| SimulatorCalls.QuoteIs | tradepulse/broker/simulated.py:694-713 | Exactly which quotes are accepted; an accepted one joins its series and releases the fills parked on its instrument, each no earlier than it began to wait |
| SimulatorCalls.ScheduleIs | tradepulse/broker/simulated.py:979-1003 | Exactly which scripts are accepted, once per client id |
| SimulatorCalls.SeedIs | tradepulse/broker/simulated.py:742-765 | A transfer is accepted exactly for a valid position not held, and from that instant on adds it and nothing else |
| SimulatorCalls.CheckIs | tradepulse/broker/simulated.py:1256-1281 | The check after a read fails exactly when some order breaks one of its conditions, each written out over the fields and the FILL rows counted as a set; otherwise it remembers what is filled and what an order ended as |
| TradingSession.OpenIffInsideASession | tradepulse/broker/simulated.py:360-365 | Open exactly when the instant lies in some session, open inclusive and close exclusive, or always |
| TradingSession.NextOpenIsTheFirst | tradepulse/broker/simulated.py:367-371 | The next open is the earliest session open later than the instant, and there is none exactly when no session opens later |
| TradingSession.NextCloseIsTheFirst | tradepulse/broker/simulated.py:373-377 | Likewise the next close, at which a day order expires |
| Sellable.BuildPendingSet | tradepulse/execution/sellable.py:88-120 | The two loops build the pending set of the specification, or its error |
| Sellable.ReadHolds | tradepulse/execution/sellable.py:83-85 | A read holds every listed sell of the asset as last listed, and nothing else |
| Sellable.RefusedExactly | tradepulse/execution/sellable.py:94-111 | The snapshot is unstable exactly when the two reads differ in an order, a status or a filled quantity; otherwise the evidence is invalid exactly when an order or an outstanding intent has no readable positive quantity |
| Sellable.MembersAre | tradepulse/execution/sellable.py:103-120 | Every outstanding sell intent (not both terminal and fully settled) has a member with its approved and settled quantities under its own order, and every member is one of these or an external order at its listed quantity |
| Sellable.EveryOpenSellIsCounted | tradepulse/execution/sellable.py:90-92 | Every sell order of the asset that is open is a member of the pending set |
| Sellable.CountedOnce | tradepulse/execution/sellable.py:90-92 | Every order and intent is one member if and only if no two pending intents stand for the same order or intent |
| Sellable.ExternalsAre | tradepulse/execution/sellable.py:118-119 | The external members are exactly the open orders no intent claims |
| Sellable.EmptyClientIdHidesAnOrder | tradepulse/execution/sellable.py:99-112 | Without client ids an intent claims a stranger's order and both bounds miss one of the two sells, for every such pair |
| Sellable.ClaimsAStranger | tradepulse/execution/sellable.py:99-112 | Exactly when: an intent without a broker id claims an order that is not its own if and only if it has no client id and some listed sell has none |
| Sellable.EveryPendingSellIsDeducted | tradepulse/execution/sellable.py:90-130 | When no pending intent is in that case, each bound deducts every pending sell: the remainder of every pending intent, and every listed sell that none of them stands for |
| Sellable.SizeSell | tradepulse/execution/sellable.py:134-144 | Never above the request nor above sellable; refused exactly when nothing is sellable or an unprotective request exceeds it; a protective one is cut to fit |
| Sellable.SellableIsTheGreatest | tradepulse/execution/sellable.py:123-131 | A quantity may be sold exactly when it fits both the local position less what pending sells still take (own: approved less settled; external: all of it) and the broker position less their original quantities; none may exactly when one of the two is used up; only a negative position is an error |
| SellableExact.BoundsAtOnce | tradepulse/execution/sellable.py:123-131 | With every read at one moment, each bound is the position free of unfilled sells less exactly what it withholds: already filled parts of sells still deducted and own sells over but not yet closed in the store; for the local bound also unsettled buys |
| SellableExact.FreePositionIsOffered | tradepulse/execution/sellable.py:1-18 | With current settlement and nothing between the reads: a request up to the free position is authorized in full and a protective one above it gets exactly the free position, as long as no open sell is partly filled and the store has closed every own sell that is over; the free position itself is offered if and only if that holds |
| SellableExact.PartFillIsWithheld | tradepulse/execution/sellable.py:5-12 | The input for which it fails: one partly filled own sell, whose fill the broker bound deducts again |
| SellableExact.UndisturbedAttemptSells | tradepulse/execution/gateway.py:1152-1248 | In a run such an attempt is allowed, and sends an order for the request or the protective remainder |
| SellableRuns.StepSafe | tradepulse/execution/sellable.py:1-18 | Fills, cancels, settlements, approvals and external activity keep the accounting and the cover, and only an external order lowers the free position |
| SellableRuns.LocalBoundIsSafe | tradepulse/execution/sellable.py:126-129 | With no external fill unaccounted, the local bound is at most the free position when the sell is sent, however stale the positions and however late settlement |
| SellableRuns.BrokerBoundIsSafe | tradepulse/execution/sellable.py:130 | With external fills unaccounted, the broker bound is at most the free position when positions lag only orders still listed |
| SellableRuns.AuthorizationIsSafe | tradepulse/execution/gateway.py:1152-1248 | However stale the reads, what is authorized is between zero and the position free of unfilled sells, under either hypothesis; that all of it is authorized when nothing is stale is SellableExact.FreePositionIsOffered |
| SellableRuns.AttemptInOrder | tradepulse/execution/gateway.py:1179-1211 | Any attempt that can happen reads store, orders, positions and orders again in that order, each no earlier than the last |
| SellableRuns.NeverOversold | tradepulse/execution/sellable.py:1-18 | After every run of fills, cancels, late settlements, external orders and sell attempts, the true position covers every unfilled sell |
| Funding.FundableIsExact | tradepulse/dbae/funding.py:76-88 | An order notional is within the fundable notional if and only if its reservation fits the funding available |
| Funding.AvailableIsTheGreatest | tradepulse/dbae/funding.py:200-209 | Nothing is available exactly when the pending total is negative or cash or the class's buying power (the non-marginable one for crypto) is missing or negative; otherwise an amount is available exactly when together with what is pending it fits both |
| Funding.AcceptedWhenProven | tradepulse/dbae/funding.py:111-136 | A frozen record is accepted exactly when every number is there, its price and multiplier are the intent's, and they give its funding exactly; an option without a multiplier is the one error |
| Funding.RecordedLine | tradepulse/dbae/funding.py:166-196 | What one recorded buy reserves: the larger of its part of the frozen funding and its funding at the current profile, on the larger of requested and recorded quantity less what is attributed; when it mismatches, is unpriced or fails |
| Funding.UnrecordedLine | tradepulse/dbae/funding.py:167-190 | Sells reserve nothing; a buy without a usable record is unpriced while something is not attributed |
| Funding.PendingBuyFunding | tradepulse/dbae/funding.py:139-197 | The loop's total, mismatches and unpriced list are the specification's, or its error |
| FundingRuns.LineReserves | tradepulse/dbae/funding.py:111-136 | A record written at approval always reconciles, and reserves at least its frozen share whatever the profile has become |
| FundingRuns.PendingReserves | tradepulse/dbae/funding.py:142-149 | So the pending total is at least what every pending buy may still take by its frozen commitment |
| FundingRuns.FillPays | tradepulse/dbae/funding.py:145-146 | A fill releases at least what it takes from cash |
| FundingRuns.StepFunded | tradepulse/dbae/funding.py:151-154 | Approval, fill, late attribution, cancel and profile change each keep cash above all true commitments |
| FundingRuns.AvailableIsThere | tradepulse/dbae/funding.py:200-209 | What funding allows is at most cash less every true commitment when the order is approved, whatever the broker fills or closes meanwhile and however late that is attributed after the pending read |
| FundingRuns.ApprovedExactly | tradepulse/dbae/funding.py:200-209 | In a run a buy is approved exactly when its commitment together with the pending total fits both the cash read and the buying power of its class, and that total reserves every pending buy's frozen share |
| FundingRuns.ReserveIsExact | tradepulse/dbae/funding.py:139-154 | For each buy, what is due and what was spent since the account read are within the frozen share reserved if and only if the quantities are |
| FundingRuns.StillReservedIsExact | tradepulse/dbae/funding.py:139-154 | The condition on the two reads is exact: it holds if and only if, in every state the broker may reach before the approval, that inequality holds |
| FundingRuns.OfferedIsThereExactly | tradepulse/dbae/funding.py:200-209 | And necessary for what is offered: with one buy, fills at their full share and a profile no wider than the frozen one, the funding offered is there at the pending read if and only if the condition holds or the buying power is too small to offer more than is there |
| FundingRuns.IdleStoreReserves | tradepulse/dbae/funding.py:142-147 | It holds whenever the store attributes nothing and drops no buy between the two reads, whatever the broker fills or closes |
| FundingRuns.LateAttributionIsAllowed | tradepulse/execution/gateway.py:511-523 | So every approval whose store is idle between its two reads is one the run theorem covers, with any steps whatever after the pending read |
| FundingRuns.CashCoversCommitments | tradepulse/dbae/funding.py:139-154 | Over every run whose approvals meet that condition at their two reads, cash covers everything pending buys may still take, and is never negative |
| FundingRuns.AttributedBetweenReads | tradepulse/execution/gateway.py:511-523 | What happens without it, for every buy: the account is read, the buy fills and is attributed, and the spent cash is offered again |
| OpenOrderScan.ReadPage | tradepulse/broker/alpaca_client.py:596-644 | The row loop of one page is the page specification, which OpenOrderScan.TurnIs states of the rows |
| OpenOrderScan.TurnIs | tradepulse/broker/alpaca_client.py:596-644 | A page is refused exactly when it is too long, has a row without id, repeated, unstamped on a full page, before the request or out of order, contradicts a known order, misses an order the last page ended on, or is full with nothing new; a short one ends the scan; a full one continues one microsecond before its last stamp |
| OpenOrderScan.PageGrows | tradepulse/broker/alpaca_client.py:638-643 | A page that continues the scan adds at least one order, so on a finite population the scan terminates |
| OpenOrderScan.GetOpenOrders | tradepulse/broker/alpaca_client.py:580-645 | For every server: the loop answers if and only if its pages are complete evidence (sound pages that continue and overlap one another, consistent, each new, only the last one short), and then with exactly the orders they list, latest first |
| OpenOrderScan.BrokenPageIsRefused | tradepulse/broker/alpaca_client.py:571-578 | After any trail of accepted full pages, a next page that breaks a rule, or a full one with nothing new, ends the scan without an answer |
| OpenOrderScan.AnsweredExactly | tradepulse/broker/alpaca_client.py:571-578 | The equivalence behind it, for arbitrary responses |
| OpenOrderCompleteness.NextStart | tradepulse/broker/alpaca_client.py:563-566 | One microsecond back lands inside the page just read, takes in every order sharing its latest stamp, and restarts at the page's own first order exactly when the page is dense |
| OpenOrderCompleteness.HonestTurn | tradepulse/broker/alpaca_client.py:568-578 | On an honest server a turn finishes with everything, advances, or refuses at a dense page; nothing else |
| OpenOrderCompleteness.ScanIsExact | tradepulse/broker/alpaca_client.py:559-579 | Against a static ascending server, inclusive or exclusive, to the nanosecond: the scan returns exactly the population, or refuses if and only if a full page lies within one microsecond step |
| OpenOrderCompleteness.ReadPopulation | tradepulse/broker/alpaca_client.py:554-645 | The caller gets every order once, latest first, under the same condition |
| OrderCensus.ReadPage | scripts/a0_order_census.py:100-120 | The census page loop, with its interval check |
| OrderCensus.FetchOrders | scripts/a0_order_census.py:81-121 | For every server: the loop answers if and only if every row of its pages lies inside its request and the interval, each full page lists something new and only the last is short, and then with every order as it was listed last, ascending |
| OrderCensus.TurnIs | scripts/a0_order_census.py:100-120 | A census page fails exactly when it is too long, has a row without id or outside the interval asked for, or is full with nothing new |
| OrderCensus.CensusIsExact | scripts/a0_order_census.py:83-94 | Exactly the orders stamped in [start, end), or a failure if and only if a full page of them lies within one microsecond step |
| OrderCensus.BelowTheStart | scripts/a0_order_census.py:120 | When the first page all carries the start instant the cursor falls below the start; every page is then full and the scan can only fail |
| OrderCensus.FetchInterval | scripts/a0_order_census.py:83-94 | The caller gets those orders and no others, ascending, under the same condition |
| ActivityPaging.AddPage | tradepulse/broker/alpaca_client.py:748-752 | A page joins the list only if no identity is missing or repeated |
| ActivityPaging.PaginateActivities | tradepulse/broker/alpaca_client.py:709-759 | For every server: the loop answers if and only if the page size is 1 to 100 and its pages never repeat or miss an identity, none is oversized, no full page ends on the cursor and the last one is short, and then with every row in order |
| ActivityPaging.VisibleIs | tradepulse/broker/simulated.py:1437-1442 | The server's list is exactly the visible matching activities, each once, ascending |
| ActivityPaging.PagingRefinesTheFilter | tradepulse/broker/simulated.py:1431-1447 | For every page size 1 to 100 and every cursor, the loop over the simulator's pages ends with exactly the activities after the cursor |
| ActivityPaging.CursorsConcatenate | tradepulse/broker/alpaca_client.py:709-717 | Reading to a cursor and then from it, with any two page sizes, is reading the whole |
| ActivityPaging.GetActivities | tradepulse/broker/simulated.py:1419-1447 | Both together: the caller gets exactly the visible matching activities after the cursor, ascending |
| AttributionModel.ValidatedAre | tradepulse/execution/fill_attribution.py:198-213 | What is validated is what the boundary admits of the order's activities; ValidatedFieldByField says what that is |
| AttributionModel.ValidatedFieldByField | tradepulse/execution/fill_attribution.py:113-135 | Field by field: exactly what some activity of the order reports with an identity, the trade's symbol and side, a positive quantity and price, and a time |
| AttributionModel.AttributedIs | tradepulse/execution/fill_attribution.py:214-216 | The attributed quantity is the sum over exactly those activities, and the average price what they paid per unit; none without any |
| AttributionModel.CompletedCallHolds | tradepulse/execution/fill_attribution.py:238-339 | After a completed call: an attributed quantity above the filled one disputes the order and latches, an unreadable order is held unless it is already, a check without excess lifts a pending hold and nothing else, no other order's hold changes |
| AttributionModel.CompletedCallStatuses | tradepulse/execution/fill_attribution.py:287-312 | After a completed call: exactly the intent's pending and retryable events are blocked by an excess, every other event keeps its status, new ones are pending |
| AttributionModel.CrashKeepsBacked | tradepulse/execution/fill_attribution.py:360-370 | At every crash point of every call, every settlement event still has its fill and nothing recorded changes |
| AttributionModel.ReportIsConsistent | tradepulse/execution/fill_attribution.py:113-135 | A store that says what the broker's one record says agrees with every call that is told part of that record |
| AttributionModel.CrashKeepsFaith | tradepulse/execution/fill_attribution.py:360-384 | Every crash point of every such call leaves the store saying what the record says |
| AttributionModel.CompletedCallRecordsEach | tradepulse/execution/fill_attribution.py:341-384 | One completed call leaves one fill and one event per validated activity and creates nothing else, whatever prefixes crashed before |
| AttributionModel.HoldComesFirst | tradepulse/execution/fill_attribution.py:371-375 | At every crash point of a call in doubt, an event it has newly written is already behind its order's hold, a disputed one after a dispute |
| AttributionModel.PlanDeletes | tradepulse/execution/fill_attribution.py:243-253 | A hold is deleted only when the check verified, and only a pending one; an update only ever disputes |
| AttributionRuns.ExactlyOnce | tradepulse/execution/fill_attribution.py:360-384 | After any run of crashed and completed calls that were told parts of one broker record, one completed call leaves exactly one fill and one settlement event per activity of the order that matches the trade in every field, with its very quantity, price and time, and records nothing else; nothing recorded before changes |
| AttributionRuns.DoubtIsNeverProjected | tradepulse/execution/fill_attribution.py:227-237 | An event first written by a call that saw a dispute or could not verify is projectable at no later point of any run, until a call for that order verifies |
| AttributionRuns.DisputeIsAbsorbing | tradepulse/execution/fill_attribution.py:247-250 | A disputed hold stays for ever, and none of the order's events is ever projectable again |
| AttributionRuns.VerifyingReleases | tradepulse/execution/fill_attribution.py:243-253 | A completed consistent check does release a pending hold, and the order's pending and retryable events can be projected again |
| AttributionRuns.DisputeQuarantines | tradepulse/execution/fill_attribution.py:287-312 | A completed dispute leaves none of the intent's earlier events pending or retryable |
| FillAttribution.Repositories.RecordOne | tradepulse/execution/fill_attribution.py:359-384 | The two writes of one fill, or as many of them as the process survives |
| FillAttribution.Repositories.RecordFills | tradepulse/execution/fill_attribution.py:341-384 | The writes of all fills in order, up to the crash |
| FillAttribution.Repositories.RaiseDispute | tradepulse/execution/fill_attribution.py:287-339 | Quarantine, hold, latch, in that order, up to the crash |
| FillAttribution.Repositories.SettleHold | tradepulse/execution/fill_attribution.py:238-339 | The hold is decided and written before any record, up to the crash |
| FillAttribution.Repositories.AttributeOrderFills | tradepulse/execution/fill_attribution.py:169-388 | One call makes exactly the planned writes in order, all of them or the prefix the process survived; it reports the quantity and average of exactly the matching activities, and when it completes each of them has its fill and event and the hold is as the check decides |
| FillAttribution.Repositories.Average | tradepulse/execution/fill_attribution.py:386-388 | Quantity and average price come from the same fills |
| FillAttribution.Repositories.ResolveOrder | tradepulse/execution/fill_attribution.py:391-459 | Attributes with the check, then changes at most its own intent, to what the caller's snapshot of it resolves to |
| FillAttribution.TerminalStatus | tradepulse/execution/fill_attribution.py:58-88 | Filled exactly when the requested quantity is attributed; otherwise each failure's own status, partial exactly for a day that ended with fills, and nothing exactly where the broker is inconclusive |
| FillAttribution.ResolvedExactly | tradepulse/execution/fill_attribution.py:410-457 | When an intent is written at all, and with which quantity, price and status |
| FillAttribution.ClosedOnlyOnFullEvidence | tradepulse/execution/fill_attribution.py:410-457 | In a store whose events are backed and that says what the broker's record says (which every run keeps), an intent closes only on a terminal order whose whole filled quantity is attributed to fills that are then in the store with their events, each as that record says; filled exactly when they cover the request |
| FillAttribution.StaleSnapshotReopens | tradepulse/execution/fill_attribution.py:409-457 | The decision is made on the caller's snapshot: a stored closed intent is written open again if and only if the snapshot is open and the order advances it short of closing; never when the snapshot is current |
| ExitWalkers.SimulateExit | tools/historical_data/simulate_trades.py:156-197 | The loop returns the first exit of the walk, or censored |
| ExitWalkers.SimulateExitWithTarget | tools/historical_data/target_price_evidence.py:120-170 | Likewise with the target checked between the stop and the time stop |
| ExitWalkers.MilestoneEvidence | tools/historical_data/target_price_evidence.py:92-117 | The early-exit loop reports the first touch in the bars the baseline held, a stop's own bar excluded |
| ExitWalkers.TargetAndMilestoneInLockstep | tools/historical_data/target_price_evidence.py:95-106 | For distinct days, the documented lockstep (the target policy exits on its target k bars after entry if and only if the milestone walker reports the level reached in k bars, and when it is not reached both simulators return the same outcome) holds if and only if there is no risk or no held bar opens at or over the level with its high below it before the level is first reached |
| ExitWalkers.SaneBarsKeepLockstep | tools/historical_data/target_price_evidence.py:95-106 | In particular it holds on bars whose high covers the open |
| ExitWalkers.InconsistentBarBreaksLockstep | tools/historical_data/target_price_evidence.py:151-156 | A concrete bar that breaks it: an open above the level with a lower high is a target exit the milestone walker never sees |
| ExitWalkers.StopNeverFalls | tools/historical_data/simulate_trades.py:133-153 | With positive initial risk the operative stop never falls from bar to bar, never below the initial stop, and is at least the entry once ratcheted |
| ExitWalkers.StopIs | tools/historical_data/simulate_trades.py:133-153 | The stop in force is the initial one until a close has gained the trigger, and from then on the least level at least the entry and every trailing multiple below the highest close so far |
| ExitWalkers.ExitIsTheFirst | tools/historical_data/simulate_trades.py:156-204 | Both simulators exit on the first bar that is stopped, on target or out of time, in that priority, at the open for a gap, the level for a touch and the close for time, with that price in R; and are censored exactly when no bar does |
| ExitWalkers.RatchetedStopNeverLoses | tools/historical_data/simulate_trades.py:181-182 | A stop exit that is not a gap, after ratcheting, has R at least zero |
| ExitWalkers.NoLookahead | tools/historical_data/simulate_trades.py:159-166 | The outcome depends only on the bars up to the exit bar, for both simulators |
| Ladder.ReplayLadder | research/labels.py:175-211 | The loop returns the trade's R less cost, exit and bars; nothing without risk or enough bars |
| Ladder.LadderIs | research/labels.py:187-211 | The trade ends on the first bar that ends it, for its reason and at its price, or at the fifteenth close, with half sold at one R exactly when an earlier high reached it |
| Ladder.EveryExitIsBounded | research/labels.py:194-211 | From every bar survived, each exit still possible keeps the bounds |
| Ladder.LadderBounds | research/labels.py:176-189 | For well-formed bars: fractions sold total exactly 1; before cost no outcome exceeds 2R; none but a gap is below -1R; after scaling out none but a gap is below 0.5R |
| FeeSplit.SplitUnits | tradepulse/adoption/accounting.py:27-31 | The in-place increments give the specified parts |
| FeeSplit.SplitIsFair | tradepulse/adoption/accounting.py:21-33 | Parts sum to the amount exactly, each is nonnegative and less than one unit from its proportional share, and a strictly heavier fill never gets less |
| FeeSplit.LeftoverByRemainder | tradepulse/adoption/accounting.py:29-31 | Every part is its share rounded down or one more, and whoever gets one more has the larger remainder, or the smaller id at equal remainders, than whoever does not |
| FeeSplit.ReceiptGives | tradepulse/adoption/accounting.py:45-59 | What one receipt gives each fill: all of it to a fill it names, otherwise to each fill of its order the part of the split by quantity, signed, and nothing to any other |
| FeeSplit.SplitReceipt | tradepulse/adoption/accounting.py:56-59 | One order-level receipt adds its parts to the order's fills and raises the total by exactly its fee |
| FeeSplit.PartIsItsOwn | tradepulse/adoption/accounting.py:58-59 | Each fill of the order gets its own part of the split and no other |
| FeeSplit.ClosingFeeAllocation | tradepulse/adoption/accounting.py:36-60 | Every fill ends with its own fee plus its share of each receipt (all of one that names it, its part of one that names only its order), and the total is own fees plus every matched receipt counted once |
| Ranks.AverageRanks | tools/historical_data/entry_composite_audit.py:88-100 | The sort and tie-block loops give each value its counting rank: smaller values plus half of one more than its equals |
| Ranks.RanksSum | tools/historical_data/entry_composite_audit.py:96 | Ties or not, ranks sum to n(n+1)/2 |
| Ranks.RanksKeepOrder | tools/historical_data/entry_composite_audit.py:88-100 | Smaller value, smaller rank; equal value, equal rank; and conversely |
| Ranks.TransformKeepsRanks | tools/historical_data/entry_composite_audit.py:88-100 | A strictly increasing transform changes no rank |
| Ranks.SpearmanOf | tools/historical_data/entry_composite_audit.py:103-120 | The sums are the specified correlation |
| Ranks.SpearmanLaws | tools/historical_data/entry_composite_audit.py:103-107 | Symmetric, and unchanged by strictly increasing transforms of either series |
| Ranks.DefinedExactly | tools/historical_data/entry_composite_audit.py:104-110 | Defined if and only if the series have one length, at least two, and neither is constant |
| Ranks.SpearmanBounded | tools/historical_data/entry_composite_audit.py:113-120 | Never beyond one in magnitude, and exactly one for a series against itself |
| Ranks.SpearmanIs | tools/historical_data/entry_composite_audit.py:113-120 | Numerator and variances written out: the sum of products of ranks less n(n+1)(n+1)/4 |
| Ranks.ReverseNegates | tools/historical_data/entry_composite_audit.py:113-120 | A strictly decreasing transform of one series negates the correlation; a series against its own reverse has minus one |
| Lease.StepKeepsInv | tradepulse/runtime_lease.py:141-171 | Opening, locking, checking, releasing, dying, deleting and replacing each keep: descriptors are private and every lock is held through an open descriptor of its inode |
| Lease.VerifiedIsUnique | tradepulse/runtime_lease.py:134-139 | Two leases of one path that both verify are the same lease |
| Lease.AtMostOneLease | tradepulse/runtime_lease.py:150-180 | Over every interleaving from a clean start, at every instant at most one lease of a path passes `verify()` |
| Lease.ReplacedFileHasTwoHolders | tradepulse/runtime_lease.py:167-171 | Holding alone is not exclusive: after a replacement two processes hold, and only the newer verifies |
| Lease.FreeFileIsTaken | tradepulse/runtime_lease.py:151-176 | A file nobody locks is taken at the first try and the lease verifies |
| Lease.LockedFileIsBusy | tradepulse/runtime_lease.py:157-166 | A locked file is refused, its holder keeps it, and the process may try again |
| Lease.ReplacedOnceIsTaken | tradepulse/runtime_lease.py:151-176 | A file replaced once between open and lock is still taken, by the second round |
| Lease.ReplacedTwiceIsNot | tradepulse/runtime_lease.py:151-176 | Replaced again before the second lock it is not, and nothing of anyone else's changes |
| Lease.ReleasingFrees | tradepulse/runtime_lease.py:141-147 | Releasing, or dying, closes the descriptor and leaves the file free, and no other lock changes |
| Lease.Host.Acquire | tradepulse/runtime_lease.py:150-176 | Two rounds at most, closing and reopening after a failed check, others running before every kernel call: on success the lease is held and verifies, otherwise it is busy or unavailable |
| Lease.Host.Others | tradepulse/runtime_lease.py:157-171 | What other processes do never changes this process's own state |
| Lease.AccountLease.Verify | tradepulse/runtime_lease.py:134-139 | For a process whose object mirrors the kernel's record of it: passes exactly when its lease verifies, and then no other process's lease of the path does |
| Lease.AccountLease.Release | tradepulse/runtime_lease.py:141-147 | Clears the descriptor first, then unlocks, then closes, with others in between; a second release does nothing |

## Left out

- SimulatorPolling.ReadsNeverMatter: the identical timeline is proved for untied quotes; for ties across symbols the order of bookings within the instant really differs, and SimulatorTiedRuns.ReadsOnlyReorder is the law.
- SimulatorPolling.PollIndependence: under the same condition, for the same reason; SimulatorTiedRuns.PollTied is its counterpart up to ties.
- SimulatorPolling.DrainCommutes: likewise; SimulatorTiedQuotes.ReadEither is its counterpart up to ties.
- SimulatorTiedRuns.ReadsOnlyReorder: leaves out quotes tied within one symbol: a coin fee posting at the very instant of a quote its own coin waits for (CoinTieReorders; a waiting sell without faults would book alike in either order, which is not proved) or two instruments of one symbol quoted for one instant, which its classification of symbols does not produce. Fee delays are not negative; which of two errors at one instant is raised first may differ.
- SimulatorTiedRuns.PollTied: under the same conditions.
- SimulatorTiedQuotes.ReadEither: under the same conditions.
- SimulatorTimeline.ObservedPastIsImmutable: since the first recorded instant and for fee delays that are not negative; both limits have their own lemmas in the table.
- SimulatorLedger.RunConserves: for fee delays that are not negative; EarlyFeeLosesTheFill shows why.
- SimulatorLedger.DrainBalanced: likewise.
- SimulatorLimits.EarlyFeeLosesTheFill: about the books of one fill and its cash fee; EarlyFeeLosesTheRead is what one read shows of it.
- SimulatorHoldings.ScriptErrorsUnreachable: for fee delays that are not negative, and without injected faults, short seeds and coin fees, each of which makes one of the errors reachable by design.
- SimulatorOrders.RunKeepsOrderInvariants: says nothing of the object after a script error, which the simulator leaves half-stepped; a scenario ends there.
- Simulator identity: random UUIDs, activity-id text, description strings, number formatting and raw dictionaries are numbers drawn in order; orders are values in a sequence, so aliasing of one order object is not captured.
- SimulatedBroker.SimulatedBroker.QuoteAt: its bisection and the timeline's recursive one agree on rising series, which every scripted series is; the history bisection is specified on the recorded times in the same way.
- Simulator heap: the class keeps its entries in any order and pops the least (instant, number); the binary-heap layout of `heapq` is not modelled.
- Simulator faults other than OVERFILL and ACCEPT_OVERSELL: timeouts, rate limits, disconnects, lagged positions, withheld activities, held calls and steps between calls.
- Simulator settings: fill latency, activity lag, option multipliers and fee scenario are fixed for a run; bars, option chains, dividends, calendar differences and the opening journal are not modelled; order types and times in force that the code refuses outright are not representable.
- Simulator marking: equity uses the mid quote of each held symbol; account, position and clock payloads are not modelled beyond it.
- SellableRuns.AuthorizationIsSafe: one attempt of the three; a retry is an attempt with later reads. External sells opened after the first order read must show in the second or have come to nothing by the time of sending, as no read could show the others.
- Sellable.EveryPendingSellIsDeducted: one-way; when a nameless intent does meet a nameless sell, EmptyClientIdHidesAnOrder shows the loss for one pair, and how much larger books lose is not stated.
- SellableRuns.BrokerBoundIsSafe: for positions that lag only behind orders still listed; a sell already closed and settled before the reads needs the local bound.
- Sellable.BuildPendingSet: external members come in read order, not sorted by id (the bounds are sums); quantity parsing is a value or its absence; ids are numbers.
- Gateway checks before the bounds (locks, unresolved executions, history completeness, fill cursor, unknown activity): their outcome is the hypothesis that no closed external sell is unaccounted.
- Funding.PendingBuyFunding: the pending remainders are a parameter (the store query is not modelled), sells are skipped before it, and text parsing of a frozen block is a value or its absence.
- FundingRuns.AvailableIsThere: the condition is asked of every buy; over several buys one may make up for another, which the exact statement for one buy does not use.
- FundingRuns.CashCoversCommitments: approvals whose store attributes between their two reads a fill later than the account read are out, as AttributedBetweenReads shows they must be; a fill is taken to debit at most its frozen per-unit share, the broker-side assumption the reservation is built on.
- OpenOrderCompleteness.ScanIsExact: the server is static and lists its population oldest first from its first order, the one property the code says no response can show; HTTP errors and non-list bodies are out.
- OrderCensus.CensusIsExact: stamps are whole microseconds at the client, and a stamp that does not parse is out.
- ActivityPaging.PaginateActivities: page evidence hashing, the 422 for a malformed token and non-list bodies are out; activity ids are numbers in their own order.
- FillAttribution.Repositories.AttributeOrderFills: alerts, fees, slippage and reference fields of a fill, and the crypto gross-fill epochs that replace one of the writes, are out; each write is one transaction.
- AttributionRuns.DoubtIsNeverProjected: projection by the settlement processor is one guarded step that reads the hold and the event together; its own steps and the process_pending call after resolution are out.
- FillAttribution.Repositories.ResolveOrder: the read that took the caller's snapshot is a parameter; StaleSnapshotReopens says what an old one can do.
- ExitWalkers.SimulateExit: ATR is an arbitrary function of the visible window, days are numbers, and the entry price is not zero; entry generation is out.
- Ladder.ReplayLadder: prices to exact reals; the text form of R is out.
- FeeSplit.ClosingFeeAllocation: fills and receipts are sequences in store order; a receipt's amount comes with its own smallest unit; quantities are positive.
- Ranks.SpearmanOf: over exact values; binary rounding, NaN and the square root are out, so the correlation is its numerator with the two variances under the root.
- Lease.AtMostOneLease: assumes one exclusive lock per inode, held through an open descriptor and gone when it closes; a replacement may bring any inode; network file systems, mount checks, the holder record and `/proc/locks` are out.
- The rest of the repository: HTTP and retries, SQLite repositories and codecs, the command line and session commands, valuation, calendar checks, bands and policy rules, calibration grids and reports.
