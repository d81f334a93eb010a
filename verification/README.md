# Verified core of the stonks backtest and paper-trading guards

This project models three parts of the repository and proves what they are for.

1. **The deterministic backtest scheduler and its ledger projection.** LEAN and Nautilus each hand out
   bar volume to orders in priority order; the result validator recomputes the same plan a third time.
   The reference allocator (`Allocator`) is stated once. The three programs are modelled in the form they
   have (`LeanEngine.LeanBook` updates dictionaries held by an object, `NautilusEngine` and
   `ExpectedSchedules` update locals in loops) and each is proved against it. About the allocator the project proves
   conservation, the waterfall closed form, time-in-force safety, causality and priority isolation; about
   the whole path, that the two engines' raw output gives the same report. What each step means is then said a
   second time in the fields of the job and of the engines' output, without the allocator's or the adapter's own
   vocabulary: who gets how much on which bar (`AllocationExact`), what a fill costs (`PricingLaws`), what a result
   holds (`ResultLaws`), which raw output is read and as what (`TraceReadings`).
2. **The transactional guards of the paper-trading database.** Triggers, CHECKs and unique keys act on each
   statement, deferred constraint triggers act at commit, any failure rolls back. NULL and three-valued
   conditions are explicit (`Sql`, `Chain`). `PaperDatabase.Session` is the connection; the theorems in
   `DatabaseTheorems` hold of every history of transactions from empty tables. The `…Admits` modules,
   `DatabaseProgress` and `DatabaseParts` say the converse: exactly which statements and transactions go through,
   column by column, and what they leave. `PointInTime`,
   `OrderRaces` and `AccountRaces` model READ COMMITTED interleavings step by step: the point-in-time links, the
   fills of an order, the event log of an account; `PointInTimeProgress` says which of those transactions commit.
3. **The sweep line of the capacity probe** (`CapacityProbe`).

How to read it: a model module (`Allocator`, `LedgerGuards`, `PointInTime`, …) comes first, its laws follow in
`…Laws`, and the main theorems are in `ScheduleTheorems`, `TwoRuns`, `EngineEquivalence`, `Parity`,
`EngineTraces`, `AllocationExact`, `ResultLaws`, `TraceReadings`, `ExpectedSchedules`, `DayOrders`, `DatabaseTheorems`,
`DatabaseProgress`, `AccountRaceLaws`, `OrderRaceNecessity`, `PointInTimeNecessity`, `PointInTimeProgress` and
`CapacityProbe`.
Amounts are exact reals, times are integers, UUIDs are numbers below 16^32 or strings.

Facts about the code that the proofs brought out:

- The engines agree exactly when the child limit is positive and every DAY order has a session. LEAN refuses
  any other job; Nautilus runs it, and a DAY order without a session just never trades.
- A DAY order is confined to the *date* of its first open session, not to the session. All its children lie in
  that session, in every job over the calendar, exactly when no later session of the market has the same date
  and opens before the order expires (`DayOrders.DayStaysInFirstSession`); two sessions on one date already give
  a job whose only child trades in the second (`DayOrders.SplitDayLeavesFirstSession`).
- Zero-padded child ids sort as their numbers exactly below ten million; the final sort still keeps
  generation order at any size, because an order's children open at strictly later times.
- In every hash chain the trigger alone accepts a NULL previous hash; the CHECK on the row's shape is what
  closes the chain (`Chain.ShapeDecides`). `reservation_event.from_state` has no such CHECK, so a NULL there
  is accepted anywhere after the first event (`ReservationGuards.NullFromAccepted`).
- The deferred fill check takes no lock of its own. Under READ COMMITTED the guards alone let a fill commit after
  its order was cancelled; that writers first lock the account row is exactly what rules it out
  (`OrderRaceNecessity.EndIsSafeExactly`). `apply_paper_execution` takes that lock; `append_order_event` and
  `save_fill` (src/stonks_agent/adapters/postgres/trading_repository.py:365-397 and 450-469) do not.
- Overfilling needs more: a fill must be journaled in its own transaction, and an account's journal has one
  uncommitted writer at a time. So an order is never overfilled exactly when writers lock the account or all its
  fills are in one account (`OrderRaceNecessity.FillIsSafeExactly`). No guard ties a fill's account to the order's;
  `fill_matches_intent` does for `save_fill`.
- Events may run ahead of their row: a reservation or a strategy can move to a version whose event an earlier
  transaction already recorded, so the event written beside an amendment or a promotion need not be the one that
  tells it (`ReservationAdmits.AmendExactly`, `StrategyAdmits.PromoteExactly`). An account's event cannot.
- The account log stays exact over every interleaving because the UPDATE locks the row; the unique key on
  (account, sequence) is not needed for it (`AccountRaceLaws.LogAlwaysExact`).
- The run-row lock, the linked-run freeze and the append-only triggers are each necessary: without any one of
  them a look-ahead can be committed (`PointInTimeNecessity.GuardsAreExact`).

## Model

| member | source | states |
|---|---|---|
| BacktestContracts.SessionForBarFinds | packages/contracts/src/stonks_contracts/backtest.py:178-208 | the bisection returns a session if and only if it is the one session of the market that contains the bar |
| BacktestContracts.FirstSessionFinds | packages/contracts/src/stonks_contracts/backtest.py:210-217 | it names the date of the first session still open after the order was issued and before it expires, and is None exactly when there is none |
| BacktestQuanta.FloorQuantum | packages/contracts/src/stonks_contracts/backtest_math.py:120-125 | the result is within one quantum below the value |
| BacktestQuanta.FloorAbsorbs | packages/contracts/src/stonks_contracts/backtest_math.py:120-125 | the floor is the largest multiple: any multiple not above the value is not above the floor |
| BacktestQuanta.CeilQuantum | packages/contracts/src/stonks_contracts/backtest_math.py:128-133 | the result is within one quantum above the value |
| BacktestMath.BuyPricePositive | packages/contracts/src/stonks_contracts/backtest_math.py:33-77 | a BUY is never priced below the open |
| BacktestMath.SellPricePositive | packages/contracts/src/stonks_contracts/backtest.py:674-694 | under the job's bound a SELL keeps at least one price quantum after all adverse costs |
| BacktestMath.ValidJobPrices | packages/contracts/src/stonks_contracts/backtest_math.py:33-77 | in a validated job no order can be refused a price on a bar of its instrument |
| BacktestMath.LimitRespected | packages/contracts/src/stonks_contracts/backtest_math.py:33-77 | a LIMIT order is filled between the open and its limit, so never beyond the limit and never better than the open |
| PricingLaws.PriceExactly | packages/contracts/src/stonks_contracts/backtest_math.py:33-77 | a fill is priced at p exactly when p is the open moved by spread, slippage and scaled impact and rounded against the order to whole quanta (bettered by the limit), the quote is positive and the open does not break the limit |
| PricingLaws.ChargeIs | packages/contracts/src/stonks_contracts/backtest_math.py:79-98 | the fee is the least whole number of fee quanta not below the minimum fee nor the bps fee plus the unit fee |
| LeanEngine.DaySessions | sidecars/lean/engine.py:314-327 | succeeds exactly when every DAY order has a first session, and then maps each to its date |
| Allocator.OpeningQuantities | sidecars/lean/engine.py:235 | the dictionary built from the orders holds exactly their ids, each with its full quantity when ids are distinct, and is the allocator's start |
| LeanEngine.LeanBook.ScheduleOrderOnBar | sidecars/lean/engine.py:259-311 | the in-place update of one order on one bar is one reference visit, or fails exactly as it does |
| LeanEngine.LeanBook.ScheduleBar | sidecars/lean/engine.py:240-255 | the inner loop is the reference walk over the orders from the bar's floored capacity |
| LeanEngine.LeanBook.ScheduleBars | sidecars/lean/engine.py:240-256 | the outer loop is the reference sweep over the bars, including where it overflows |
| LeanEngine.LeanSchedule | sidecars/lean/engine.py:226-256 | the whole scheduler equals the refusal rules plus the sorted reference schedule |
| NautilusEngine.PlaceOrder | sidecars/nautilus/engine.py:310-343 | the inner loop body is one reference visit |
| NautilusEngine.PlaceOrders | sidecars/nautilus/engine.py:304-343 | one bar is the reference walk |
| NautilusEngine.PlaceBars | sidecars/nautilus/engine.py:293-343 | all bars are the reference sweep |
| NautilusEngine.NautilusSchedule | sidecars/nautilus/engine.py:283-346 | the whole scheduler equals the sorted reference schedule in Nautilus' child format |
| ScheduleLaws.WaterfallClosedForm | sidecars/lean/engine.py:240-311 | on each bar order k receives min(remaining, max(0, capacity minus the demand of earlier eligible orders)) and the bar total is min(capacity, total demand) |
| ScheduleLaws.WalkShares | sidecars/lean/engine.py:272-311 | each order's remainder falls by exactly its waterfall share |
| ScheduleLaws.SweepConserves | sidecars/lean/engine.py:235-256 | throughout the run scheduled plus remaining equals the ordered quantity |
| ScheduleLaws.SweepBarTotals | sidecars/lean/engine.py:330-339 | the children of a bar never exceed its floored capacity, and bars not reached have none |
| ScheduleLaws.SweepFalls | sidecars/lean/engine.py:294-311 | remaining quantities only fall and never below zero |
| ScheduleLaws.OpenOrdersSawDrainedBars | sidecars/lean/engine.py:240-311 | an order open at the end found every bar on which it was eligible fully drained |
| ChildLaws.SweepNumbers | sidecars/lean/engine.py:299-309 | an order's children carry indexes 1, 2, 3, … |
| ChildLaws.SweepOwners | sidecars/lean/engine.py:240-255 | children exist only for orders of the job |
| ChildLaws.ShareInLots | sidecars/lean/engine.py:330-339 | every share is a whole number of lots |
| TimeInForceLaws.SweepPlaces | sidecars/lean/engine.py:272-311 | every child sits on a bar its order could trade, in positive whole lots, at strictly later opens, an IOC order's on its first opportunity |
| ScheduleTheorems.OrderConserved | sidecars/lean/engine.py:226-256 | for every order of a finished schedule: children plus a non-negative whole-lot remainder is the order |
| ScheduleTheorems.BarNotOverdrawn | sidecars/lean/engine.py:330-339 | for every bar of a finished schedule: its children sum to at most its floored participation |
| ScheduleTheorems.GenerationOrderKept | sidecars/lean/engine.py:256-309 | the final sort keeps each order's children in generation order, numbered from 1, at strictly later opens |
| ScheduleTheorems.ChildIdsDistinct | sidecars/lean/engine.py:349-376 | no two children of a schedule share an id |
| ScheduleTheorems.ChildrenInWindow | sidecars/lean/engine.py:342-346 | every child trades strictly inside its order's validity window, on a tradable bar that crosses, in positive whole lots |
| ScheduleTheorems.IocOnFirstOpportunity | sidecars/lean/engine.py:272-311 | an IOC order has at most one child and only on its first opportunity in run order |
| DayOrders.DayStaysInFirstSession | sidecars/lean/engine.py:272-292 | in every valid job over a calendar all children of a DAY order lie in its first session, if and only if no later session of the market has the same date and opens before the order expires |
| DayOrders.LeavesFirst | packages/contracts/src/stonks_contracts/backtest.py:210-217 | whenever such a later session exists, a valid job and schedule exist whose child trades in it and not in the first session |
| DayOrders.SplitDayLeavesFirstSession | sidecars/lean/engine.py:272-292 | a concrete job with two sessions on one date and a DAY order issued in the first, whose only child trades in the second |
| Identifiers.ChildIdInjective | sidecars/lean/engine.py:349-376 | a child id determines its order and its index, at any index |
| Identifiers.PaddingKeepsOrder | sidecars/lean/engine.py:349-376 | ids sort as their indexes for all indexes up to n if and only if n is below ten million |
| Identifiers.ChildIdReads | sidecars/lean/engine.py:349-376 | a child id reads back: "B", the order id in 32 hexadecimal digits, "-", the index in at least seven decimal digits |
| AllocationExact.TriesMeans | sidecars/lean/engine.py:272-292 | in a valid job an order is tried on a bar exactly when the bar is of its instrument, opens strictly inside its window and, for DAY, lies in a session dated like the first one open to the order |
| AllocationExact.FillableMeans | sidecars/lean/engine.py:277-311 | it can trade there exactly when moreover the bar is tradable and the open does not break its limit |
| AllocationExact.AllocationIs | sidecars/lean/engine.py:226-339 | the whole schedule in closed form: on every bar, order k gets min(what it has not yet received, max(0, c minus what earlier orders want)) and the bar min(c, all that is wanted), c being the whole lots with c <= volume * max participation < c + lot |
| AllocationExact.WithinParticipation | sidecars/lean/engine.py:330-339 | no bar of a finished schedule gives more than volume * max participation |
| AllocationExact.LargeDemandDrains | sidecars/lean/engine.py:330-339 | a bar whose eligible orders want at least its share gives every whole lot of volume * max participation |
| AllocationExact.UnfilledSawDrainedBars | sidecars/lean/engine.py:240-311 | an order that was not filled found every bar on which it could trade drained of its whole lots |
| AllocationExact.ScheduledChildReads | sidecars/lean/engine.py:349-376 | every child repeats its order and bar; a LEAN limit child has the less restrictive of its limit and one price quantum through the open, any other child the order's own limit |
| TwoRuns.ScheduleIsCausal | sidecars/lean/engine.py:226-311 | two jobs with the same bars before t schedule exactly the same children before t |
| TwoRuns.LowerPriorityInvisible | sidecars/lean/engine.py:240-311 | appending orders leaves the children of the earlier orders exactly as they were |
| EngineEquivalence.VenueIrrelevant | sidecars/nautilus/engine.py:283-377 | the two child formats never change which order gets what on which bar under which id |
| EngineEquivalence.EnginesAgree | sidecars/nautilus/engine.py:283-346 | the engines produce the same schedule or overflow at the same bar and order, if and only if the limit is positive and every DAY order has a session |
| EngineTraces.LeanFillIdInjective | sidecars/lean/engine.py:643-646 | two LEAN fill identifiers are equal exactly when both numeric ids are |
| EngineTraces.ParseFillEvents | sidecars/lean/engine.py:622-661 | accepts a list exactly when no event is refused and no pair of ids fills twice, and returns the fills sorted by time and id; ParsesExactly and ParsedReads say both in the words and columns of the output |
| EngineTraces.ReadOrder | sidecars/nautilus/engine.py:413-428 | reads a child's fills exactly when all happened at its bar's open |
| EngineTraces.ExtractFills | sidecars/nautilus/engine.py:380-410 | skips unknown orders, fails exactly on an untimely fill, and returns the fills sorted by time and id; ExtractsExactly and ExtractedReads say both in columns |
| EngineTraces.LeanFullyFilled | sidecars/lean/engine.py:622-661 | if LEAN's filling events are one full fill per child in any order, the parsed trace is one full fill per child |
| EngineTraces.NautilusFullyFilled | sidecars/nautilus/engine.py:380-428 | the same for the Nautilus cache |
| EngineTraces.FullTraceIsValid | sidecars/lean/adapter.py:242-263 | a full-fill trace of the schedule passes validation once its fills are soundly named and priced |
| EngineTraces.RawOutputsReportAlike | sidecars/lean/adapter.py:208-365 | from raw engine output: one full fill per child on each side, with positive prices, non-negative fees and distinct trade ids in the cache, gives two valid traces and the same outcomes, cash, positions and fees |
| EngineTraces.NautilusSound | sidecars/nautilus/engine.py:380-428 | fills read from a cache with distinct non-empty trade ids, positive prices and non-negative fees are soundly named and priced |
| TraceReadings.ParsesExactly | sidecars/lean/engine.py:622-661 | an event list is read exactly when every event names a child, every event with quantity is "Filled" or "PartiallyFilled", says "Buy" for a BUY and "Sell" for a SELL and has non-negative ids, and no pair of ids fills twice |
| TraceReadings.ParsedReads | sidecars/lean/engine.py:647-661 | the fills read are one for every event with quantity and no other, with its absolute quantity, price, fee and "L-order-event" name, its child's order, bar and time, sorted by time and then name |
| TraceReadings.ExtractsExactly | sidecars/nautilus/engine.py:380-428 | the cache is read exactly when every fill of a scheduled child happened at its bar's open |
| TraceReadings.ExtractedReads | sidecars/nautilus/engine.py:380-428 | the fills read are every fill of a scheduled order, no other and none twice, with its own id, quantity, price and fee, sorted by time and then id |
| TraceReadings.OrdinaryEventsRead | sidecars/lean/engine.py:622-661 | events that fill every child once, with its own words, signed quantity and distinct ids, are read and give a full fill per child |
| TraceReadings.OrdinaryCacheRead | sidecars/nautilus/engine.py:380-428 | a cache that fills every child once at its bar's open is read and gives a full fill per child |
| TraceReadings.OrdinaryRunsReportAlike | sidecars/lean/adapter.py:208-365 | ordinary output of both engines, in any order, is read; both adapters refuse it only for its balances, and report the same |
| Adapter.MapOutcomes | sidecars/lean/adapter.py:304-328 | one outcome per order from the summed fills, failing exactly on an over-fill |
| Adapter.Project | sidecars/lean/adapter.py:331-365 | final cash and positions are the opening ones plus the summed effects, failing exactly on an unknown currency or instrument |
| Adapter.RunMapping | sidecars/lean/adapter.py:208-239 | validating, mapping, totalling and projecting as it runs is the declared report |
| Adapter.CashConserved | sidecars/lean/adapter.py:331-365 | cash moves by minus signed notional minus fees |
| Adapter.ProjectionOrderFree | sidecars/nautilus/adapter.py:322-356 | any permutation of the fills gives the same cash, positions, totals and fees |
| Adapter.ReportOrderFree | sidecars/nautilus/adapter.py:199-356 | the whole report depends on the fills only as a multiset |
| Parity.SameExecutionsSameReport | sidecars/nautilus/adapter.py:199-356 | two traces with the same executions are accepted alike and give the same report, whatever their ids |
| Parity.EnginesReportAlike | sidecars/lean/adapter.py:208-365 | full fills of each engine's own schedule give both adapters the same report |
| ResultLaws.PricedExactly | sidecars/lean/adapter.py:264-301 | a fill is mapped to a body exactly when the body has the engine's quantity, time and bar, the order's side, the price and fee of the cost model, and all amounts in whole quanta |
| ResultLaws.OutcomesAre | sidecars/lean/adapter.py:304-328 | one outcome per order, by order id: FILLED iff nothing remains, PARTIALLY_FILLED iff something is filled and something remains, CANCELLED iff an IOC or DAY order got nothing, EXPIRED iff a GTC order got nothing and its validity has passed, else ACCEPTED, each with its reason |
| ResultLaws.ResultExactly | sidecars/lean/adapter.py:208-239 | a trace is accepted exactly when it covers the orders with sound, distinct fills that can all be mapped, over-fills no order and leaves no balance negative or off its quantum |
| ResultLaws.ResultReads | sidecars/lean/adapter.py:208-365 | what an accepted result holds: the mapped fills by time and id, the outcomes, and cash, positions and fees as opening balances plus the moves of the fills |
| ResultValidation.ScheduledPrices | sidecars/lean/adapter.py:264-301 | no scheduled child of a validated job is refused by the fill model |
| ResultValidation.FilledIsScheduled | sidecars/lean/adapter.py:304-328 | what the adapter counts as filled is what was scheduled |
| ResultValidation.OutcomesFollowSchedule | sidecars/lean/adapter.py:304-328 | each outcome's filled quantity is the schedule's, so no order is over-filled |
| ResultValidation.AdapterReportsSchedule | sidecars/lean/adapter.py:208-239 | a full-fill trace is refused only for its balances |
| ExpectedSchedules.ExpectOrder | packages/contracts/src/stonks_contracts/_backtest_validation.py:155-177 | the validator's loop body mirrors one reference visit |
| ExpectedSchedules.ExpectBar | packages/contracts/src/stonks_contracts/_backtest_validation.py:149-177 | its inner loop mirrors the reference walk |
| ExpectedSchedules.ExpectBars | packages/contracts/src/stonks_contracts/_backtest_validation.py:141-177 | its outer loop mirrors the reference sweep |
| ExpectedSchedules.ExpectedFillSchedules | packages/contracts/src/stonks_contracts/_backtest_validation.py:133-178 | it plans for every order exactly the placements of the unlimited reference run |
| ExpectedSchedules.ScheduleMeetsExpectation | packages/contracts/src/stonks_contracts/_backtest_validation.py:133-178 | whatever the child limit, a successful schedule is the expected one |
| ExpectedSchedules.LimitIsExact | sidecars/lean/engine.py:294-311 | a schedule exists exactly when the children of an unlimited run are no more than the limit, and then it is that run's |
| ExpectedSchedules.NextBarSequenceHolds | packages/contracts/src/stonks_contracts/_backtest_validation.py:115-130 | the adapter's result fills of a full-fill trace are, order by order, exactly the expected sequence |
| Chain.Latest | migrations/paper_trading_0010_guards.py:119-120 | the row with the greatest sequence, and no row only for an empty table |
| Chain.AdmittedExactly | migrations/versions/0010_paper_trading.py:116-131 | trigger and CHECKs together admit exactly the next number naming the previous hash, with the table's own conditions |
| Chain.ShapeDecides | migrations/versions/0010_paper_trading.py:119-123 | a row the trigger lets through continues the chain if and only if the shape CHECK passes |
| Chain.TriggerAdmitsNull | migrations/paper_trading_0010_guards.py:125-128 | on any non-empty chain the trigger alone accepts a NULL previous hash and the chain breaks |
| AccountGuards.ExecKeeps | migrations/paper_trading_0010_guards.py:79-134 | every accepted statement keeps the working invariant and undoes nothing |
| AccountGuards.CommitExact | migrations/paper_trading_0010_guards.py:139-152 | passed deferred checks leave every account with events exactly 1..aggregate_sequence, however often it was advanced |
| AccountGuards.RecordsExactly | migrations/paper_trading_0010_guards.py:111-131 | an event is accepted if and only if it is the account's next, hash-linked, not earlier, and numbered as the row |
| AccountGuards.AdvanceCommits | migrations/paper_trading_0010_guards.py:82-152 | a valid advance with its matching event is never refused |
| AccountAdmits.AdvancesExactly | migrations/paper_trading_0010_guards.py:91-103 | an update is accepted exactly for the next version: same identity, aggregate one higher, portfolio and ledger each as before or one higher, a new ledger hash exactly with a new ledger entry; it stores that version and queues it |
| AccountAdmits.AdvanceExactly | migrations/paper_trading_0010_guards.py:82-152 | an advance and an event together commit exactly for a next version and the event with its number, hash link and time |
| ReservationGuards.ExecKeeps | migrations/paper_trading_0010_guards.py:181-239 | every accepted statement keeps the queued row versions consecutive, falling and continuing the replayed log |
| ReservationGuards.ExecEvolves | migrations/paper_trading_0010_guards.py:184-214 | terms never change, the number never falls, the remaining amount never rises, events are append-only |
| ReservationGuards.QueueReplays | migrations/paper_trading_0010_guards.py:242-258 | when every queued version has its event, the falling replay reaches the current row |
| ReservationGuards.CommitExact | migrations/paper_trading_0010_guards.py:242-258 | a commit leaves every reservation row equal to its own event at the end of a falling replay |
| ReservationGuards.ChangesExactly | migrations/paper_trading_0010_guards.py:219-239 | an event is accepted if and only if it is the reservation's next, hash-linked, not earlier, and its from_state is NULL or the last to_state |
| ReservationGuards.NullFromAccepted | migrations/versions/0010_paper_trading.py:325 | an event with NULL from_state is accepted after any event, to any state |
| ReservationGuards.AmendCommits | migrations/paper_trading_0010_guards.py:184-258 | a valid amendment with its matching event is never refused |
| ReservationAdmits.AmendsExactly | migrations/paper_trading_0010_guards.py:190-214 | an update is accepted exactly for the next version: same terms, one number higher, naming the hash before it, no more remaining and that in whole quanta |
| ReservationAdmits.ReserveExactly | migrations/paper_trading_0010_guards.py:184-258 | a reservation and an event together commit exactly for an opening row and the first event that tells it |
| ReservationAdmits.AmendExactly | migrations/paper_trading_0010_guards.py:184-258 | an amendment and an event together commit exactly for a next version, the log's next event, and a log that then tells the version at its number |
| ReservationAdmits.EitherOrder | src/stonks_agent/adapters/postgres/trading_execution.py:185-215 | writing the event first or the row first is accepted alike and leaves the same tables |
| LedgerLaws.OrderLogGrows | migrations/paper_trading_0010_guards.py:264-285 | an accepted order event keeps the log chained, time-ordered, with rising cumulative quantity and a legal status run |
| LedgerLaws.FinalIsLast | migrations/paper_trading_0010_guards.py:278-283 | nothing can follow a cancelled, expired or rejected event |
| LedgerLaws.ExecKeeps | migrations/paper_trading_0010_guards.py:261-338 | every statement keeps keys and logs and queues whatever it adds for its deferred trigger |
| LedgerLaws.CommitPairs | migrations/versions/0012_paper_ledger.py:158-170 | after a commit every fill has its journal row and every journal row its fill, with the same order and account |
| LedgerLaws.CommitTotal | migrations/versions/0012_paper_ledger.py:171-180 | a commit that adds a fill leaves the order's total equal to its latest cumulative quantity in a fill status |
| LedgerLaws.CommitNotOverfilled | migrations/versions/0012_paper_ledger.py:171-180 | no commit leaves an order with more filled than its latest event declares |
| LedgerLaws.CommitAfterEnd | migrations/versions/0012_paper_ledger.py:175-180 | once an order has ended no commit adds a fill to it |
| LedgerLaws.CommitFreezes | migrations/paper_trading_0010_guards.py:317-338 | a committed journal transaction's postings never change again |
| LedgerLaws.CommitKeeps | migrations/versions/0012_paper_ledger.py:146-193 | a commit from committed books gives committed books |
| LedgerLaws.CommitEvolves | migrations/paper_trading_0010_guards.py:50-65 | append-only tables, frozen postings and closed orders from one committed state to the next |
| LedgerAdmits.ProgressExactly | migrations/paper_trading_0010_guards.py:264-285 | an order event is accepted if and only if it is the next one, takes one of the twelve listed steps from the last status, and neither its cumulative quantity nor its time falls |
| LedgerAdmits.JournalExactly | migrations/paper_trading_0010_guards.py:296-310 | a journal row is accepted if and only if it is its account's next, under unused keys, for a known fill |
| LedgerAdmits.AddsExactly | migrations/versions/0010_paper_trading.py:517-549 | a posting is accepted exactly under a journal row, with a new index, and a positive amount in whole quanta |
| LedgerAdmits.TotalIs | migrations/versions/0012_paper_ledger.py:171-173 | the filled total of an order is the sum of the quantities of its fills |
| LedgerAdmits.NetIs | migrations/paper_trading_0010_guards.py:322-327 | the net of a transaction is its debits minus its credits |
| LedgerAdmits.BookingExactly | migrations/versions/0012_paper_ledger.py:146-193 | a fill, order event, journal row and two postings commit together from committed books if and only if the fill is new, the event is the order's next fill event and declares what the fills then add up to, the journal row is the next of the fill's account and names fill and order, and the postings are opposite |
| TrialBalance.NetOfBalanced | migrations/paper_trading_0010_guards.py:322-327 | any set of balanced transactions nets to zero in every commodity |
| TrialBalance.TrialBalanceIsZero | migrations/paper_trading_0010_guards.py:317-338 | in committed books each account's debits minus credits are zero per commodity |
| TrialBalance.FillsAreJournaled | migrations/versions/0012_paper_ledger.py:158-170 | the fill ids and the journal's source fills are permutations of each other |
| StrategyLaws.PromotionMeans | migrations/versions/0009_strategy_registry.py:199-261 | an accepted promotion keeps identity, adds one to the version, is legal, and is bound to a passed evaluation of the same build where it must be |
| StrategyLaws.ExecKeeps | migrations/versions/0009_strategy_registry.py:179-327 | every statement keeps the queued mutations a legal continuation of the audited run |
| StrategyLaws.CommitExact | migrations/versions/0009_strategy_registry.py:328-362 | a commit leaves the first version audit events spelling a legal bound run to the row |
| StrategyLaws.RunInPhase | migrations/versions/0009_strategy_registry.py:223-229 | the stage reached at a version is fixed modulo four |
| StrategyLaws.SuccessiveVisits | migrations/versions/0009_strategy_registry.py:223-229 | successive visits to paper_eligible are four versions apart through suspended, evaluating, shadow |
| StrategyLaws.PromotionCommits | migrations/versions/0009_strategy_registry.py:187-362 | a permitted promotion with its audit event is never refused |
| StrategyAdmits.PromotesExactly | migrations/versions/0009_strategy_registry.py:199-262 | a promotion is accepted exactly for the next version: same identity, one of the eight listed steps, and the evidence its stage asks for, bound to this strategy and build and, for shadow and paper_eligible, passed and still valid |
| StrategyAdmits.AuditsExactly | migrations/versions/0009_strategy_registry.py:291-320 | an audit event is accepted exactly as the next link, with a report and its hash or neither |
| StrategyAdmits.RegisterExactly | migrations/versions/0009_strategy_registry.py:187-362 | a registration and an audit event together commit exactly for a fresh draft and the first event that tells it |
| StrategyAdmits.PromoteExactly | migrations/versions/0009_strategy_registry.py:187-362 | a promotion and an audit event together commit exactly for a next version, the log's next event, and a log that then tells the promotion at its version |
| PaperDatabase.Session.Execute | migrations/paper_trading_0010_guards.py:79-338 | a statement either updates the working tables as its guards allow or aborts the transaction; the invariant is kept |
| PaperDatabase.Session.Commit | migrations/versions/0012_paper_ledger.py:185-193 | deferred triggers decide between the whole transaction and nothing; committed states only evolve |
| PaperDatabase.Session.Run | migrations/paper_trading_0010_guards.py:79-338 | a transaction run statement by statement is the all-or-nothing transaction function, and reports which it was |
| PaperDatabase.HistoryCommitted | migrations/paper_trading_0010_guards.py:79-338 | every history of transactions from empty tables ends in a committed state with all invariants |
| PaperDatabase.HistoryEvolves | migrations/paper_trading_0010_guards.py:50-76 | nothing an earlier part of a history established is undone by any later part |
| DatabaseTheorems.AccountLogExact | migrations/paper_trading_0010_guards.py:79-152 | in every history an account's events are exactly 1..aggregate_sequence, linked by non-null hashes, in time order, the last at the row's update time |
| DatabaseTheorems.ReservationReplay | migrations/paper_trading_0010_guards.py:181-258 | in every history the row equals event number event_sequence, and up to it the remaining amount never rises and stays within 0..amount |
| DatabaseTheorems.FillsAndJournals | migrations/versions/0012_paper_ledger.py:146-193 | in every history fills and journal transactions are in bijection with the same order and account |
| DatabaseTheorems.FillCommitAgrees | migrations/versions/0012_paper_ledger.py:171-180 | in every history a transaction that adds a fill leaves its order's total at the latest cumulative quantity |
| DatabaseTheorems.NeverOverfilled | migrations/versions/0012_paper_ledger.py:171-180 | in every history an order with fills has filled at most its latest cumulative quantity |
| DatabaseTheorems.NoFillAfterEnd | migrations/versions/0012_paper_ledger.py:175-180 | after a committed cancelled, expired or rejected event no later transaction ever adds a fill to the order |
| DatabaseTheorems.JournalFrozen | migrations/paper_trading_0010_guards.py:293-338 | a committed journal transaction keeps exactly its declared balanced postings through every continuation |
| DatabaseTheorems.TrialBalanceZero | migrations/paper_trading_0010_guards.py:293-338 | in every history debits minus credits are zero per account and commodity |
| DatabaseTheorems.StrategyRun | migrations/versions/0009_strategy_registry.py:179-362 | in every history the audit log spells a legal run to the row, shadow and paper_eligible are bound to passed evaluations of the same manifest and runtime, and paper_eligible falls on versions divisible by four |
| DatabaseTheorems.EligibleVisits | migrations/versions/0009_strategy_registry.py:223-229 | in every history successive visits to paper_eligible are separated by exactly suspended, evaluating, shadow |
| DatabaseParts.RunsApart | migrations/paper_trading_0010_guards.py:79-338 | any interleaving of statements on accounts, reservations, ledger and strategies leaves each part as its own statements alone would |
| DatabaseParts.CommitsApart | migrations/versions/0012_paper_ledger.py:185-193 | a transaction commits exactly when each part passes its own deferred triggers, and leaves each part settled; otherwise nothing changes |
| DatabaseProgress.OpeningCommits | migrations/paper_trading_0010_guards.py:82-90 | from any committed database, an account opens exactly at zero under a new id |
| DatabaseProgress.AdvanceCommits | migrations/paper_trading_0010_guards.py:82-152 | from any committed database, advancing an account commits exactly for a next version with its matching event; then just those two rows are written, else none |
| DatabaseProgress.ReserveCommits | migrations/paper_trading_0010_guards.py:184-258 | the same for opening a reservation |
| DatabaseProgress.AmendCommits | src/stonks_agent/adapters/postgres/trading_execution.py:185-215 | the same for amending a reservation, event first |
| DatabaseProgress.BookingCommits | migrations/versions/0012_paper_ledger.py:146-193 | from any committed database a booking commits exactly when it fits; then the ledger holds the fill, the order event, the journal row and both postings, and nothing else changed |
| DatabaseProgress.ProgressCommits | migrations/paper_trading_0010_guards.py:264-285 | an order event alone commits exactly as the order's legal next event |
| DatabaseProgress.RegisterCommits | migrations/versions/0009_strategy_registry.py:187-362 | registering a strategy commits exactly as a fresh draft with the event that tells it |
| DatabaseProgress.PromotionCommits | migrations/versions/0009_strategy_registry.py:187-362 | promoting a strategy commits exactly for a next version that the audit log then tells |
| DatabaseProgress.EvaluationCommits | migrations/versions/0009_strategy_registry.py:88-123 | an evaluation is stored exactly under a new report id for a registered strategy |
| DatabaseProgress.BookOver | src/stonks_agent/adapters/postgres/trading_execution.py:162-190 | over a connection a booking succeeds exactly when it fits what is committed, and is then committed |
| OrderRaceLaws.FillCommitAgrees | migrations/versions/0012_paper_ledger.py:171-180 | under the account lock, at the moment a fill commits, the order's total equals its latest cumulative quantity and the order has not ended, whatever ran in between |
| OrderRaceLaws.LockedNext | src/stonks_agent/adapters/postgres/trading_execution.py:132-171 | when writers lock the account first, every step of every transaction keeps the order safe and the others' reads true |
| OrderRaceLaws.BookedNext | migrations/paper_trading_0010_guards.py:293-315 | with all fills in one account and no lock, every step keeps the order from being overfilled, because the account's journal has one uncommitted writer |
| OrderRaceNecessity.LateFill | migrations/versions/0012_paper_ledger.py:146-193 | without the lock, whichever accounts are used, a journaled fill can commit after its order was cancelled |
| OrderRaceNecessity.DoubleFill | migrations/versions/0012_paper_ledger.py:146-193 | without the lock two fills of one order journaled in different accounts can each match the declared quantity and overfill the order |
| OrderRaceNecessity.EndIsSafeExactly | migrations/versions/0012_paper_ledger.py:171-180 | over all READ COMMITTED interleavings no fill follows its order's end, if and only if writers lock the account first |
| OrderRaceNecessity.FillIsSafeExactly | migrations/versions/0012_paper_ledger.py:158-180 | over all READ COMMITTED interleavings no order is overfilled, if and only if writers lock the account first or all fills of the order are in one account |
| OrderRaceNecessity.MarkGoesThrough | migrations/paper_trading_0010_guards.py:264-285 | however callers behave, the legal next event of an order nobody is writing to commits |
| OrderRaceNecessity.FillGoesThrough | migrations/versions/0012_paper_ledger.py:146-193 | however callers behave and whatever else is in progress, a fill event that declares the new total commits with its fill and journal row |
| AccountRaceLaws.OldNumberRefused | migrations/paper_trading_0010_guards.py:111-131 | an event numbered from a stale read of the account row cannot continue the log |
| AccountRaceLaws.NextKeeps | migrations/paper_trading_0010_guards.py:79-152 | every step of every transaction keeps the committed log exact and the lock holder's view a valid continuation |
| AccountRaceLaws.LogAlwaysExact | migrations/paper_trading_0010_guards.py:79-152 | over all READ COMMITTED interleavings an account's committed events are exactly 1..aggregate_sequence, hash-linked and in time order, with or without the unique key on the sequence |
| AccountRaceLaws.OpenGoesThrough | migrations/paper_trading_0010_guards.py:82-90 | an account that does not exist opens at zero and commits, unless another transaction is opening it |
| AccountRaceLaws.AdvanceGoesThrough | migrations/paper_trading_0010_guards.py:79-152 | whatever else is in progress, a valid advance of an unlocked account commits with its matching event |
| PointInTimeLaws.RunsMerge | migrations/versions/0007_pit_authority_invariants.py:75-140 | two transactions that share no lock and no new key commit into one store whose run links still lie in the past |
| PointInTimeLaws.RunLinkOk | migrations/versions/0007_pit_authority_invariants.py:78-100 | under the row lock the link written is sound for what the run is at that moment |
| PointInTimeLaws.UpdateOk | migrations/versions/0007_pit_authority_invariants.py:107-140 | under the freeze an update keeps every link of the run sound |
| PointInTimeLaws.NextKeeps | migrations/versions/0007_pit_authority_invariants.py:36-140 | every step of every transaction keeps the invariant, other transactions' reads included |
| PointInTimeLaws.NeverLooksAhead | migrations/versions/0007_pit_authority_invariants.py:36-140 | over all READ COMMITTED interleavings every committed run's snapshot holds only evidence with available_at <= snapshot.as_of <= run.as_of |
| PointInTimeLaws.Server.Take | migrations/versions/0007_pit_authority_invariants.py:36-140 | one step of the server is the step function, and the committed tables never look ahead |
| PointInTimeLaws.Server.Play | migrations/versions/0007_pit_authority_invariants.py:36-140 | any interleaving played on the server is the run function |
| PointInTimeNecessity.WithoutLock | migrations/versions/0004_pit_snapshot_references.py:130-164 | with the unlocked trigger a concurrent update commits a look-ahead |
| PointInTimeNecessity.WithoutFreeze | migrations/versions/0007_pit_authority_invariants.py:107-140 | without the freeze a linked run can be moved before its snapshot |
| PointInTimeNecessity.WithoutAppendOnly | migrations/versions/0001_core_data.py:470-491 | without the append-only trigger a linked snapshot can be moved past its run |
| PointInTimeNecessity.LinkCommits | migrations/versions/0007_pit_authority_invariants.py:75-104 | under any combination of guards a sound link commits |
| PointInTimeNecessity.GuardsAreExact | migrations/versions/0007_pit_authority_invariants.py:36-140 | no reachable state looks ahead if and only if lock, freeze and append-only are all in force |
| PointInTimeProgress.StepsStayApart | migrations/versions/0007_pit_authority_invariants.py:36-140 | only a commit writes to the tables, a step touches no other transaction, and a rollback leaves no trace |
| PointInTimeProgress.EvidenceLinkExactly | migrations/versions/0007_pit_authority_invariants.py:36-72 | under any guards and whatever else is in progress, an evidence-link transaction commits its link exactly when the evidence is proven, strict, and available and as of no later than the snapshot; else nothing changes |
| PointInTimeProgress.RunLinkExactly | migrations/versions/0007_pit_authority_invariants.py:78-100 | a run-link transaction commits exactly when the run has no link yet and the snapshot and its cutoff lie no later than the run; else nothing changes |
| PointInTimeProgress.UpdateExactly | migrations/versions/0007_pit_authority_invariants.py:107-140 | an update replaces the run's row exactly when the version is positive and, under the freeze, a linked run keeps its authority columns; else nothing changes |
| PointInTimeProgress.EvidenceInserts | migrations/versions/0001_core_data.py:249-262 | evidence is stored exactly under a new id with available_at <= observed_at and, when strict, proven and available by its as-of time |
| PointInTimeProgress.EvidenceAmends | migrations/versions/0001_core_data.py:470-491 | evidence is changed exactly where the append-only trigger is missing |
| PointInTimeProgress.SnapshotAmends | migrations/versions/0001_core_data.py:470-491 | a snapshot is changed exactly where the append-only trigger is missing |
| PointInTimeProgress.EvidenceLinkCommits | migrations/versions/0007_pit_authority_invariants.py:36-72 | under any guards, every sound piece of evidence can be linked to a snapshot and committed, for every id and time |
| PointInTimeProgress.RunLinkCommits | migrations/versions/0007_pit_authority_invariants.py:78-100 | under any guards, every snapshot in a run's past can be linked to it and committed, for every id and time |
| PointInTimeProgress.LinksAreSound | migrations/versions/0007_pit_authority_invariants.py:36-140 | over every interleaving, linked evidence is proven, strict, and available and as of no later than its snapshot, and a linked snapshot and its cutoff are no later than the run |
| PointInTimeProgress.EvidenceLinkableExactly | migrations/versions/0007_pit_authority_invariants.py:36-72 | with every protection in force, given evidence can be committed under a given snapshot if and only if it is proven, strict and as of no later |
| PointInTimeProgress.RunLinkableExactly | migrations/versions/0007_pit_authority_invariants.py:78-140 | with every protection in force, a given run can be committed with a given snapshot if and only if the snapshot is no later |
| CapacityProbe.LevelNonNegative | scripts/capacity_probe_measurement.py:256-268 | the running count of the sweep is never negative |
| CapacityProbe.PeakConcurrency | scripts/capacity_probe_measurement.py:256-268 | the loop returns exactly the maximum over all times of the samples with start <= t < finish |

## Left out

- Decimal context limits and rounding (`_require_bounded`, inexact division): arithmetic is exact.
- Session breaks, and the high, low and close of a bar: scheduling and pricing read only the open, the volume and the tradable flag.
- Hashes and external identities of fills, orders and results; SHA-256 and UUID derivation: hashes are opaque stored values.
- JSON shape and type checks of LEAN's trace, its event-count limit, Nautilus order statuses and trace reasons: the typed events are where the model starts.
- The remaining checks of the result validator (`_validate_volume_caps`, `_validate_projection`'s running negativity check, hash bindings).
- LEAN's instrument restrictions (`_validate_supported_job`), process launch, data files, Nautilus engine objects, HTTP applications and authentication.
- Concurrency between paper-trading transactions beyond one order's fills and one account's log: the histories of `DatabaseTheorems` are serial. In `OrderRaces` and `AccountRaces` hash links of orders and waits on the latest event row, which only remove interleavings, are left to `Chain` and to the sequence key.
- AdvanceGoesThrough: a repeated event hash or event id would still be refused.
- `SET CONSTRAINTS … IMMEDIATE`: deferred triggers run at commit here. A transaction that runs them early and then adds order events would not leave the total of FillCommitAgrees.
- RecordsExactly: the unique event hash, the event id and foreign keys outside the model can also refuse; the "if" is about the modelled guards.
- ChangesExactly: the unique event hash and the event id can also refuse.
- ProgressExactly: the unique event hash, the event id and the order's foreign key can also refuse.
- JournalExactly: the unique transaction hash and the account and order foreign keys can also refuse.
- AdvanceCommits: a repeated event hash or event id would still be refused; such global keys are not modelled.
- AmendCommits: a repeated event hash or event id would still be refused.
- PromotionCommits: a repeated event hash or event id would still be refused.
- BookingExactly: foreign keys and unique hashes outside the model can also refuse one of the five inserts.
- BookingCommits: speaks of the modelled guards only, and of one fill with two postings. For the invariants, constraints left out only mean that more behaviours are covered.
- AdvanceExactly: a repeated event hash or event id would still be refused.
- ReserveExactly: foreign keys and a repeated event hash or id outside the model can also refuse.
- AmendExactly: a repeated event hash or event id would still be refused.
- RegisterExactly: the unique manifest id and hash, and a repeated event hash or id, can also refuse.
- PromoteExactly: a repeated event hash or event id would still be refused.
- EvaluationCommits: the unique evaluation hash and the snapshot and artifact foreign keys can also refuse.
- FillGoesThrough: hash links and times of the order events are left to `Chain`, journal links to `LedgerAdmits`.
- Cash, position and ledger projections, kill switch, portfolio targets, risk decisions, order intents, grants and roles: row-wise checks that none of the proved invariants needs.
- `clock_timestamp()` is one parameter per statement, so the two clock readings inside one strategy promotion are equal.
- Deleting a run or changing its id in the point-in-time model, and updates of the link tables, which their append-only triggers always refuse.
- Operator-audit and artifact-maintenance chains, receipts and valuations: the same chain shape with fewer conditions.
