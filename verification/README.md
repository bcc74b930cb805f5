# StratForge: a verified model

This project models the parts of StratForge on which a back-test's numbers depend, and
proves what they promise. To verify (Dafny 4.11): `dafny verify dfyconfig.toml`.

| part | files | main results |
|---|---|---|
| Back-test broker | `Numbers`, `Orders`, `Positions`, `Trades`, `Ledger`, `Fills`, `Broker`, `BackBroker`, and their `...Laws`; `TradeLists`, `ExecutionCosts`, `DueOrders`, `TurnLaws`, `Cancellations`, `StaleOrders`, `LateParents` | double entry over every run, positions agree with trades, the pending list mirrors the book, due orders are attempted, OCO and bracket safety, legal fills and costs, solvency |
| Live fills | `LiveFills` | fills are recovered exactly from trade reports |
| Multi-clock timeline | `Calendar`, `Interval`, `IntervalLaws`, `Aggregation`, `Feeds`, `Gate`, `Cerebro` | periods partition time, resampling composes, three aggregators agree, the gate is exact, no look-ahead end to end and exactly when |
| Configuration scanner | `Json`, `Scanner`, `FeedPlan`, `FeedLists`, `Quotes`, `FeedCuts`, `FeedSurvival` | key search and feed plan round trips over nested documents, and exactly which feed plans survive |
| Corrective layer | `Calibration`, `Shadows`, `Collector`, `ClaimLaws`, `Lifecycle`, `Decisions` | monotone bounded sizing, orders as decided, one outcome per candidate |
| Optimizer | `Optimizer` | row-major grid, independence of the schedule |

Objects that the source updates in place are classes (`BackBroker`, `Position`, `Trade`,
`DataFeed`, `ResampledFeed`, `Cerebro`, `LiveBroker`, `ShadowLedger`, `CandidateCollector`,
`WorkerPool`). Each method is proved to take the object from its old abstract value to a
function of it, and the laws are lemmas about those functions and about whole runs of them.

Numbers are exact reals. The source's epsilons (1e-10, and 1e-12 in live mode) are kept as
constants; order sizes are whole multiples of a lot not smaller than 1e-10, on which every
"near zero" test decides exactly between zero and non-zero (`Numbers.GridNearZero`). Order
sizes are positive, as a zero size would leave a trade open that no fill can close. Time
stamps are integers of nanoseconds since the epoch.

## What does not hold, and when it does

- The pending list mirrors the book on return from `process_orders` exactly if no order left
  pending names as its parent a main order that this call has attempted and seen fail
  (`StaleOrders.MirrorOnReturnIff`; `LateParents.StaleIff` is the moment it goes wrong). Only an
  order submitted behind a parent id that does not exist yet can be such an order
  (`LateParents.EarlyChildSurvives`), so runs assume that a parent is older than its child.
- A trailing stop is the best of its levels, except exactly when the best level is zero and
  the last bar proposes another (`FillLaws.TrailIsFoldIff`): zero means "not set" to the code,
  and the stop restarts at the next level. Positive prices with distances below them never
  propose a zero level (`FillLaws.ZeroLevelIff`, `FillLaws.SaneDistancesFold`).
- A long position of exactly 1e-10 is neither flat nor long to the code: `close` buys it again
  (`DueOrders.CloseFlattensIff`).
- Cancelling a main order through `cancel_order` leaves its held children pending
  (`BracketLaws.CancelTouchesOne`), and so does its rejection for its data index
  (`TurnLaws.RejectedMainLeavesChildren`); they can never complete
  (`BracketLaws.OrphanNeverCompletes`).
- With ordered master bars nothing leaks from the future exactly if no master bar closes after
  the context period of the next one has ended (`Gates.NoLookaheadIff`, for runs
  `Cerebros.RunPastOnlyIff`). Bars that are at least one bar duration apart meet this
  (`Gates.SpacedIsUncrowded`); crowded ones may not (`Gates.CrowdedBarsLeak`).
- Periods of every vocabulary pair nest except 1w into 1M (`IntervalLaws.VocabularyNests`).
- `Resampler` and `DataReplay` number weeks with a truncating division: before Monday
  1969-12-29 every instant that is not on a Monday gets the number of the week after its own
  (`Feeds.WeekBuckets`), so each earlier Monday joins the week before it
  (`Feeds.EarlyMondaysMove`). From that date on they agree with `ResampledFeed`.
- `parse_feeds` matches braces and brackets without regard to quotes. A compact feed plan whose
  strings have neither quote nor backslash, and whose brackets are balanced, survives exactly
  if, inside each object, the braces of its strings, read one after the other, never close more
  than they have opened and close all they open. If a string closes the list, it is lost. If
  the strings leave brackets open, the reader runs on behind the list; then too a list is lost
  whose first unbalanced object is closed early by one of its strings, whatever the rest of the
  document holds, while one that opens too much may be completed by that rest
  (`FeedSurvival.FeedsSurviveIff`, `FeedSurvival.ReadWithIff`, `FeedSurvival.StringsDecide`,
  `FeedSurvival.LaterTextRescues`). So `{}` in a string does no harm, while a lone brace of
  either kind loses feeds, short of such an accident.
- The comment on `PopCalibrator::from_platt` says sigma(ax + b); the code computes
  1 / (1 + exp(ax + b)), which rises exactly for a <= 0 (`Calibration.PlattRisesIff`). The
  model follows the code.

## Model

| member | source | states |
|---|---|---|
| `Positions.FilledCostBasis` | include/stratforge/broker/position.hpp:20-73 | a fill on the lot grid keeps the position sound, and size times average price changes by exactly what the fill pays minus the profit it realises, whether it opens, adds, reduces or reverses |
| `Positions.FilledPrices` | include/stratforge/broker/position.hpp:20-73 | the price before the fill is remembered; the average is the fill price where the position opens or turns, and untouched where it is only reduced |
| `Positions.Position.Update` | include/stratforge/broker/position.hpp:20-73 | the in-place update reaches exactly the state of the value function those laws are about |
| `Trades.OpenTrade` | include/stratforge/broker/trade.hpp:46-97 | the first fill opens a trade whose size and price are the fill's, stamped with its bar and time, with no profit and only its commission lost |
| `Trades.GrowTrade` | include/stratforge/broker/trade.hpp:46-97 | a fill in the trade's direction raises its cost by what was paid and realises nothing |
| `Trades.ShrinkTrade` | include/stratforge/broker/trade.hpp:46-97 | a fill against the trade realises (fill price - average price) on what it closes; it closes the trade exactly when it takes the whole size, and stamps the exit |
| `Trades.Trade.Update` | include/stratforge/broker/trade.hpp:46-97 | the in-place update of all fields, in the source's order, reaches the state of the value function |
| `LedgerLaws.PairOpens` | include/stratforge/broker/broker.hpp:966-973 | on a flat position the new trade copies size and price of the new position |
| `LedgerLaws.PairGrows` | include/stratforge/broker/broker.hpp:974-981 | adding keeps the open trade a copy of the position |
| `LedgerLaws.PairShrinks` | include/stratforge/broker/broker.hpp:1005-1014 | reducing keeps the copy, and the realised profit is what the cost basis releases |
| `LedgerLaws.PairReverses` | include/stratforge/broker/broker.hpp:985-1004 | a reversal splits into a closed trade and a new one: the commission split loses nothing, the profit is that of the closed part, the new trade copies the reversed position |
| `TradeLists.FillOpens` | include/stratforge/broker/broker.hpp:966-973 | a fill on a flat position appends one trade under the next id, with the size, price, commission, bar, time and candidate of the fill |
| `TradeLists.FillGrows` | include/stratforge/broker/broker.hpp:974-981 | a fill in the direction of the trade changes it in place, and adds to its original size |
| `TradeLists.FillShrinks` | include/stratforge/broker/broker.hpp:1005-1014 | a smaller fill against it reduces it in place and realises its part of the gain |
| `TradeLists.FillCloses` | include/stratforge/broker/broker.hpp:1005-1014 | a fill of the opposite size moves it to the end of the closed list, with its exit price, bar and time, and its original size |
| `TradeLists.FillReverses` | include/stratforge/broker/broker.hpp:985-1004 | a larger fill closes it and opens a new one with what is left over; each bears the commission in proportion to its share of the fill |
| `TradeLists.WholeFillFlattens` | include/stratforge/broker/broker.hpp:900-911 | a fill of the opposite of the position leaves it flat and without an open trade |
| `LedgerLaws.PostLaws` | include/stratforge/broker/broker.hpp:900-911 | one execution keeps positions and open trades in agreement; invested cost plus cash changes by the net profit of the trades; commissions are conserved; only the filled position moves, by the filled size |
| `BackBrokers.BackBroker.UpdateTrades` | include/stratforge/broker/broker.hpp:962-1021 | the in-place update of open and closed trades computes the ledger function the laws are about, and leaves the positions alone |
| `BackBrokers.BackBroker.GetPosition` | include/stratforge/broker/broker.hpp:953-960 | finds the position of a feed, or appends a flat one |
| `BackBrokers.BackBroker.PostFill` | include/stratforge/broker/broker.hpp:900-911 | cash, position and trades after an execution, as `LedgerLaws.PostLaws` describes them |
| `FillLaws.FillsInsideBar` | include/stratforge/broker/broker.hpp:732-942 | with low <= open <= high and no slipping out, every fill of all six order types lies within the bar |
| `FillLaws.LimitOrBetter` | include/stratforge/broker/broker.hpp:732-942 | without slippage a limit-type fill is at the limit or better |
| `FillLaws.FillsNearestToOpen` | include/stratforge/broker/broker.hpp:732-853 | for all six order types, without slippage: an order fills if and only if the bar trades at a price that wakes it and at one it accepts, and then at the accepted price nearest to the open; a stop order without a stop price is the only malformed one |
| `FillLaws.SlippageIsAdverse` | include/stratforge/broker/broker.hpp:918-942 | slippage never improves a price and never makes an order fill |
| `FillLaws.MarginIff` | include/stratforge/broker/broker.hpp:866-903 | an order that triggers ends in Margin exactly if it is a buy that would overdraw the cash, and otherwise completes and is posted |
| `FillLaws.FillSolvent` | include/stratforge/broker/broker.hpp:862-916 | with a capped commission and non-negative prices an attempt never makes cash negative |
| `ExecutionCosts.CompletedPays` | include/stratforge/broker/commission.hpp:25-43 | a completed order has paid, or been paid, size times price, and is charged a share of it, a fixed sum or a sum per share, or the minimum if that is more |
| `ExecutionCosts.PercentageCosts` | include/stratforge/broker/commission.hpp:25-43 | with a percentage commission and no minimum a buy costs size * price * (1 + rate) and a sale brings size * price * (1 - rate) |
| `ExecutionCosts.FixedIsFlat` | include/stratforge/broker/commission.hpp:25-43 | a fixed commission is the same at every size and price |
| `ExecutionCosts.PerShareAdds` | include/stratforge/broker/commission.hpp:25-43 | a commission per share is additive in the size and independent of the price |
| `ExecutionCosts.MinimumIff` | include/stratforge/broker/commission.hpp:25-43 | the minimum is charged exactly where the commission without it falls short |
| `ExecutionCosts.CompletedPosts` | include/stratforge/broker/broker.hpp:898-913 | a completed order is posted as a fill of its feed and candidate, in its direction, at the time of the bar and under the current bar index |
| `ExecutionCosts.SlippedPrice` | include/stratforge/broker/broker.hpp:918-942 | the slipped price lies above the price for a buy and below it for a sale by exactly the percentage, or else the fixed amount; outside the bar it stands, is matched to the nearest price in the bar, or prevents the fill, as configured |
| `ExecutionCosts.SlippageApplies` | include/stratforge/broker/broker.hpp:734-741 | slippage on open prices is for market, stop and trailing stop orders, slippage on limit prices for the three limit types; elsewhere the price stands |
| `ExecutionCosts.LevelIs` | include/stratforge/broker/broker.hpp:678-698 | the level a bar proposes lies behind its high for a sell, its low for a buy, by the percentage of that price or else the fixed distance |
| `FillLaws.TrailIsFoldIff` | include/stratforge/broker/broker.hpp:678-698 | after any run of unfilled bars the trailing stop is the best of the bars' levels (maximum for a sell, minimum for a buy) if and only if it is not the case that the best level is zero and the last bar proposes another |
| `FillLaws.TrailIsFold` | include/stratforge/broker/broker.hpp:678-698 | so it is if no bar proposes zero, and nothing else of the order has changed |
| `FillLaws.TrailRatchets` | include/stratforge/broker/broker.hpp:678-698 | one more bar moves the stop away from the market if and only if the stop is zero and the bar proposes a level behind zero |
| `FillLaws.TrailTriggers` | include/stratforge/broker/broker.hpp:812-827 | without slippage, unless the best level is zero, a trailing stop triggers at a bar exactly if the bar reaches the level of some strictly earlier bar |
| `FillLaws.ZeroLevelIsForgotten` | include/stratforge/broker/broker.hpp:686-696 | a run of ordered bars in which the best level is zero and is forgotten |
| `FillLaws.ZeroLevelIff` | include/stratforge/broker/broker.hpp:678-698 | a bar proposes a zero level if and only if its extreme price equals the distance of a sell or minus that of a buy, or, for a percentage, the price is zero or a sell trails by all of it |
| `FillLaws.SaneDistancesFold` | include/stratforge/broker/broker.hpp:678-698 | positive prices with distances below them for a sell, and not negative for a buy, propose none, so the stop is the best level |
| `TurnLaws.ProcessMovesStop` | include/stratforge/broker/broker.hpp:359-447 | after a call, a trailing order that is still alive, without a parent or whose parent has completed, has the stop to which the bar of its feed moved it, or its old one if the call shows none |
| `TurnLaws.StopFollowsBars` | include/stratforge/broker/broker.hpp:403-409 | over any legal run, with submissions, brackets, cancellations and closings between the calls and calls without a bar of its feed, such an order, while alive, has the stop of the run over exactly the bars shown of its feed |
| `TurnLaws.PendingStopIff` | include/stratforge/broker/broker.hpp:403-409 | so the exact condition for the best level holds of the stop of an order left alive by any such run |
| `BackBrokers.BackBroker.TryFillOrder` | include/stratforge/broker/broker.hpp:732-916 | the in-place attempt computes the outcome, order and ledger that the fill laws are about |
| `BackBrokers.BackBroker.UpdateTrailStop` | include/stratforge/broker/broker.hpp:678-698 | moves and copies the stop exactly when the fold does |
| `BackBrokers.BackBroker.SubmitOrder` | include/stratforge/broker/broker.hpp:627-676 | appends one order to both lists under the next id, or nothing if the hook rejects |
| `BackBrokers.BackBroker.SubmitBracket` | include/stratforge/broker/broker.hpp:187-269 | three submissions and the child links of the main order, in both lists |
| `BackBrokers.BackBroker.CancelOrder` | include/stratforge/broker/broker.hpp:285-296 | in back-test mode, cancels as the state machine does; see `BracketLaws.CancelTouchesOne` |
| `BackBrokers.BackBroker.ClosePosition` | include/stratforge/broker/broker.hpp:298-307 | submits an order against a position that is not flat, asking the hook about its absolute size, and nothing otherwise |
| `Orders.Transitions` | include/stratforge/broker/order.hpp:73-116 | every transition leaves a terminal order alone and gives an alive one its status; only an execution writes more |
| `DueOrders.SubmitCarries` | include/stratforge/broker/broker.hpp:649-676 | the order appended to both lists carries every parameter, and the size and candidate of the verdict |
| `DueOrders.CloseFlattensIff` | include/stratforge/broker/broker.hpp:298-307 | executed in full at any price, the order that closes a position leaves it flat if and only if the position is not exactly 1e-10 long |
| `DueOrders.CloseFlatIsNothing` | include/stratforge/broker/broker.hpp:298-300 | closing a flat position submits nothing |
| `DueOrders.DueTurn` | include/stratforge/broker/broker.hpp:366-409 | an alive order that is not held, or whose parent has completed, with a bar of its feed, expires if and only if its validity ends before the bar; otherwise ledger and order are those of one attempt to fill it |
| `DueOrders.IdleTurn` | include/stratforge/broker/broker.hpp:366-385 | a held order and one without a bar wait, one for a feed that does not exist is rejected, and the ledger is left alone |
| `DueOrders.DueOutcome` | include/stratforge/broker/broker.hpp:359-447 | lifted to the whole call: such an order is on return as the attempt against the ledger at its turn decides, with the price and commission of its fill, or cancelled by the sweep if the bar did not touch it |
| `DueOrders.DueCompletes` | include/stratforge/broker/broker.hpp:359-447 | so a due sale that triggers is Completed on return, and so is a due buy that can be paid for at its turn |
| `Cancellations.CancelledOnlyIf` | include/stratforge/broker/broker.hpp:418-446 | a call cancels an order only if a member of its group has completed in the call or its parent is a main order that failed in it, and leaves no such order alive |
| `BookLaws.OrderStepFacts` | include/stratforge/broker/broker.hpp:361-409 | one order's turn touches that order only, keeps its copy in the book in step, and keeps exactly alive orders pending |
| `BookLaws.CancelPending` | include/stratforge/broker/broker.hpp:717-725 | a cancelling loop cancels exactly the pending orders it selects |
| `BookLaws.CancelBook` | include/stratforge/broker/broker.hpp:717-725 | in the book it changes only selected alive orders, which become cancelled copies |
| `BookLaws.PassStepOk` | include/stratforge/broker/broker.hpp:361-428 | one iteration of the pass keeps the book invariant, children and groups included, and moves every order only forward |
| `BookLaws.RunPassOk` | include/stratforge/broker/broker.hpp:359-432 | so does the whole loop |
| `RunLaws.ProcessOk` | include/stratforge/broker/broker.hpp:359-447 | `process_orders` keeps the invariant: ids are 1..n, pending orders are copies of the book, every alive order is pending, and on return only alive orders are |
| `RunLaws.PendingMirrorsBook` | include/stratforge/broker/broker.hpp:359-447 | on return the pending list is exactly the alive orders of the book in id order, equal in every field but `transmit` |
| `RunLaws.ApplyOk` | include/stratforge/broker/broker.hpp:145-447 | every other operation keeps the invariant too |
| `RunLaws.RunOk` | include/stratforge/broker/order.hpp:74-120 | over whole runs a terminal order never changes again, so it executes at most once, and terms never change |
| `RunLaws.ReachableMirror` | include/stratforge/broker/broker.hpp:359-447 | from the start of a back-test, in every reachable state the book is in order and the next call leaves exactly its alive orders pending |
| `StaleOrders.MirrorOnReturnIff` | include/stratforge/broker/broker.hpp:359-447 | whatever parents the orders name: from a book that the pending list mirrors, it does so again on return if and only if no order left pending names as its parent a main order that this call has attempted and seen fail |
| `StaleOrders.WriteCancelled` | include/stratforge/broker/broker.hpp:430-446 | the sweep writes exactly the selected kept orders into the book, cancelled, even where they are no longer copies of it |
| `LateParents.StaleIff` | include/stratforge/broker/broker.hpp:418-427 | the moment it goes wrong: cancelling the children of a failed main order leaves the list of orders kept so far in step with the book if and only if no kept order is such a child |
| `LateParents.EarlyChildSurvives` | include/stratforge/broker/broker.hpp:359-447 | a child submitted before its parent breaks the mirror: the book says cancelled, the pending list says alive |
| `BackBrokers.BackBroker.CancelPendingWhere` | include/stratforge/broker/broker.hpp:717-725 | the loop that cancels pending orders and copies them to the book |
| `BackBrokers.BackBroker.TakeTurn` | include/stratforge/broker/broker.hpp:361-409 | the body of the loop up to bracket and OCO handling |
| `BackBrokers.BackBroker.ProcessOne` | include/stratforge/broker/broker.hpp:361-428 | one iteration over the lists being mutated |
| `BackBrokers.BackBroker.ProcessOrders` | include/stratforge/broker/broker.hpp:359-447 | the whole method takes the heap from the old state to the state the laws of the pass are about |
| `BracketLaws.OcoCall` | include/stratforge/broker/broker.hpp:430-446 | when a call completes a member of an OCO group, no member is alive on return |
| `BracketLaws.OcoRun` | include/stratforge/broker/broker.hpp:430-446 | from then on the members of that time never change in any continuation of the run |
| `BracketLaws.HeldCompletesAfterParent` | include/stratforge/broker/broker.hpp:366-372 | over every run, an order submitted held behind a parent is Completed only if the parent is |
| `BracketLaws.BracketPlaces` | include/stratforge/broker/broker.hpp:187-269 | a bracket whose orders are accepted leaves, at the sizes of their verdicts, a market order linked to a take-profit and a stop-loss on the other side, at their prices, in the next group, held behind it in both lists |
| `BracketLaws.GroupsIssuedOnce` | include/stratforge/broker/broker.hpp:190-271 | over every run the group numbers are issued one after the other, one with every bracket and one with every request, and nothing else uses one up |
| `BracketLaws.BracketRun` | include/stratforge/broker/broker.hpp:366-372 | over every run neither of the two is Completed before the main order is |
| `BracketLaws.ExecutesOnlyWhenDue` | include/stratforge/broker/broker.hpp:366-391 | an order executes only on a bar of its own feed, within its validity, and not while held |
| `BracketLaws.OrphanNeverCompletes` | include/stratforge/broker/broker.hpp:700-707 | a held order whose parent has ended otherwise never completes |
| `BracketLaws.MarginKillsChildren` | include/stratforge/broker/broker.hpp:418-424 | a main order that ends in Margin has no alive child at the end of that call |
| `BracketLaws.CancelTouchesOne` | include/stratforge/broker/broker.hpp:285-295 | `cancel_order` cancels the named order if alive and touches no other |
| `TurnLaws.RejectedMainLeavesChildren` | include/stratforge/broker/broker.hpp:374-379 | a main order rejected because its data feed does not exist leaves a held child alive, unless another member of the child's group completes in the same call |
| `AccountLaws.OrderStepMoney` | include/stratforge/broker/broker.hpp:361-409 | a turn either leaves the ledger alone or posts exactly the execution written into the order |
| `AccountLaws.ApplyKeepsBalance` | include/stratforge/broker/broker.hpp:145-447 | every event keeps the double entry |
| `AccountLaws.RunBalanced` | include/stratforge/broker/broker.hpp:900-911 | in every reachable state cash plus invested cost is the initial cash plus the net profit of all trades; cash, commissions and every position are the replay of the completed orders |
| `AccountLaws.PositionHasItsTrade` | include/stratforge/broker/broker.hpp:962-1021 | a flat feed has no open trade, any other exactly one, with the position's size and average price |
| `AccountLaws.ValueIsExplained` | include/stratforge/broker/broker.hpp:449-462 | portfolio value is initial cash plus net profit of all trades plus unrealised profit |
| `AccountLaws.FlatCashIsClosedProfit` | include/stratforge/broker/broker.hpp:449-462 | when flat, the cash gained is exactly the closed trades' net profit |
| `AccountLaws.RunSolvent` | include/stratforge/broker/broker.hpp:862-916 | with a capped commission, ordered non-negative prices and no slipping out, cash is never negative in any run |
| `BackBrokers.BackBroker.Value` | include/stratforge/broker/broker.hpp:449-462 | the summing loop returns cash plus the marks of all positions |
| `LiveFills.NextFillRecovered` | include/stratforge/broker/broker.hpp:324-352 | two successive reports of a trade determine size, price and commission of any fill that does not reverse it |
| `LiveFills.LiveRecoversFills` | include/stratforge/broker/broker.hpp:309-357 | over every sequence of non-reversing fills of one order, hearing only the reports, the broker ends with the ledger of the fills themselves, stamped when they are heard of; executed size and commission add up, the executed price is that of the last fill, other orders are as they were; the order is Completed exactly when terminal, and the pending list is the old one with the order replaced by its copy of the book until then, and without it from then on |
| `LiveFills.LiveCompletesIff` | include/stratforge/broker/broker.hpp:309-357 | for fills and an order size that are multiples of a lot, after the last report the order is Completed exactly when the net size is zero or has reached the ordered size, and Partial otherwise |
| `LiveFills.LivePendingIff` | include/stratforge/broker/broker.hpp:538-569 | an order that was pending is off the pending list if it is terminal, and on it as a copy of the book if it is not |
| `LiveFills.ReportsWithoutFill` | include/stratforge/broker/broker.hpp:309-327 | a report of an order the broker does not know changes nothing, and one whose size is within 1e-12 of the last report only renews the snapshot |
| `LiveFills.ClosedWithoutExit` | include/stratforge/broker/broker.hpp:328-350 | a report that closes a trade without an exit price gives the price at which the whole position makes the profit reported |
| `LiveFills.LiveBroker.RecordLiveFill` | include/stratforge/broker/broker.hpp:309-357 | the method computes the state those lemmas are about |
| `LiveFills.LiveBroker.ApplyLiveExecution` | include/stratforge/broker/broker.hpp:538-569 | ledger, book and pending list after one live execution |
| `LiveFills.LiveBroker.CancelOrder` | include/stratforge/broker/broker.hpp:273-283 | in live mode a known order is cancelled in the book and in the pending list, an unknown one reported |
| `Calendar.NextMonth` | include/stratforge/data/interval.hpp:135-141 | month starts are one month length apart on the civil calendar, leap years included (section [time.cal.ymd] of the C++20 standard) |
| `Calendar.MonthLengths` | include/stratforge/data/interval.hpp:135-141 | April, June, September and November have 30 days, February 29 in a leap year and 28 otherwise, the others 31 |
| `Calendar.YearLength` | include/stratforge/data/interval.hpp:135-141 | a year has 366 days if leap and 365 otherwise |
| `Calendar.MonthOfUnique` | include/stratforge/data/interval.hpp:135-141 | the month found for a day is the only one that contains it |
| `Calendar.EpochIsDayZero` | include/stratforge/data/interval.hpp:135-141 | 1970-01-01 is day zero |
| `Intervals.CorrectedDivision` | include/stratforge/data/interval.hpp:119-125 | the truncating division with its correction is the floor, pre-epoch instants included |
| `Intervals.StartIsGrid` | include/stratforge/data/interval.hpp:114-145 | `period_start` throws exactly for unsupported timeframes and otherwise yields the grid point of the instant's period index |
| `Intervals.AdvanceIsGrid` | include/stratforge/data/interval.hpp:153-173 | `advance_periods` yields the grid point n periods further, for every integer n |
| `Intervals.GridBrackets` | include/stratforge/data/interval.hpp:114-177 | every instant lies in the half-open interval between its grid point and the next |
| `Intervals.GridIncreases` | include/stratforge/data/interval.hpp:114-177 | grid points increase strictly |
| `Intervals.IndexUnique` | include/stratforge/data/interval.hpp:114-177 | only one period contains an instant |
| `IntervalLaws.PeriodsPartition` | include/stratforge/data/interval.hpp:114-177 | start <= t < end, and the end of a period starts the next |
| `IntervalLaws.StartIdempotent` | include/stratforge/data/interval.hpp:114-145 | the start of a period is its own start |
| `IntervalLaws.StartMonotone` | include/stratforge/data/interval.hpp:114-177 | starts and ends do not decrease in time |
| `IntervalLaws.SamePeriodIff` | include/stratforge/data/interval.hpp:114-177 | two instants share a start if and only if one lies in the other's period |
| `IntervalLaws.AdvanceAdditive` | include/stratforge/data/interval.hpp:153-173 | advancing by m and then n is advancing by m + n, negative counts included |
| `IntervalLaws.PeriodLength` | include/stratforge/data/interval.hpp:94-112 | a period lasts `duration_of` where that is defined, seven days for a week, the month length for a month |
| `IntervalLaws.VocabularyOrdered` | include/stratforge/data/interval.hpp:50-61 | the table is strictly ordered by `finer_than`, and its tokens are distinct |
| `IntervalLaws.VocabularyNests` | include/stratforge/data/interval.hpp:50-61 | periods of a vocabulary pair nest if and only if the pair is not 1w into 1M |
| `IntervalLaws.WeekCrossesMonth` | include/stratforge/data/interval.hpp:126-141 | a week that lies in two months |
| `Aggregation.RunCut` | include/stratforge/data/resampled_feed.hpp:75-108 | runs of equal buckets cut the series into consecutive non-empty pieces with different neighbours |
| `Aggregation.GroupSummarizes` | include/stratforge/data/resampled_feed.hpp:75-108 | a row has the first open, the greatest high, the least low, the last close and the summed volume of its run |
| `Aggregation.GroupCausal` | include/stratforge/data/resampled_feed.hpp:75-108 | a finished row does not depend on later bars |
| `Aggregation.GroupComposes` | include/stratforge/data/resampled_feed.hpp:75-108 | aggregating to finer buckets first changes no row |
| `Aggregation.ResampleComposes` | include/stratforge/data/resampled_feed.hpp:54-118 | resampling composes, rows and time stamps, for every base series whenever periods nest |
| `Aggregation.VocabularyComposes` | include/stratforge/data/resampled_feed.hpp:54-118 | so it does for every finer and coarser vocabulary pair but 1w into 1M |
| `Feeds.ResampledFeed.Preload` | include/stratforge/data/resampled_feed.hpp:54-118 | the loop appends exactly the resampled rows and rewinds; it fails exactly for an unsupported target with something to aggregate |
| `Feeds.ResamplerRows` | include/stratforge/data/resampler.hpp:49-107 | the accumulating loop yields one row per run of equal bucket numbers |
| `Feeds.ReplayRows` | include/stratforge/data/replay.hpp:54-100 | row i is base bar i's time with the fold of its bucket so far |
| `Feeds.PeriodEndIff` | include/stratforge/data/replay.hpp:107-113 | `is_period_end` holds exactly at the last bar of a bucket |
| `Feeds.ReplayEndsAreRows` | include/stratforge/data/replay.hpp:107-113 | at those bars the replayed row is the resampler's row |
| `Feeds.BucketsArePeriods` | include/stratforge/data/resampler.hpp:142-170 | for targets that divide the day, months, and weeks from Monday 1969-12-29 on, bucket numbers coincide exactly when period starts do |
| `Feeds.WeekBuckets` | include/stratforge/data/resampler.hpp:142-170 | for every instant the week bucket is the week number, plus one exactly for instants before Monday 1969-12-29 that are not on a Monday |
| `Feeds.WeekBucketsIff` | include/stratforge/data/resampler.hpp:142-170 | for any two instants, exactly when equal week buckets mean the same week |
| `Feeds.OtherBuckets` | include/stratforge/data/resampler.hpp:142-170 | at ticks, seconds and years every instant has a bucket of its own |
| `Feeds.EarlyMondaysMove` | include/stratforge/data/resampler.hpp:142-170 | every Monday before that date has the bucket of the rest of the week before it |
| `Feeds.EarlyWeeksMerge` | include/stratforge/data/resampler.hpp:142-170 | two instants of different weeks with one bucket number |
| `Feeds.ResamplersAgree` | include/stratforge/data/resampler.hpp:49-107 | `Resampler` and `ResampledFeed` produce the same OHLCV rows |
| `Gates.GateExact` | include/stratforge/engine/cerebro.hpp:318-359 | with non-decreasing ends and closes, the gate has delivered exactly the bars whose period has ended by the last close |
| `Gates.ExecCloseIs` | include/stratforge/engine/cerebro.hpp:304-316 | a master bar closes one period after it opens, or at the end of its calendar period; one that opens a period closes at its end |
| `Gates.VisibleIff` | include/stratforge/engine/cerebro.hpp:318-359 | with ordered master bars, a resampled context bar is visible after a master bar exactly if its period has ended by that bar's close |
| `Gates.DeliveredHasEnded` | include/stratforge/engine/cerebro.hpp:318-359 | whatever the order of the time stamps, a delivered bar had ended by the close of some master bar already seen |
| `Gates.NoLookahead` | include/stratforge/engine/cerebro.hpp:304-359 | when master bars are spaced, every context bar visible after master bar b folds master bars with index at most b, and is their summary |
| `Gates.NoLookaheadIff` | include/stratforge/engine/cerebro.hpp:304-359 | for ordered master bars that holds after every bar if and only if no master bar closes after the context period of the next one has ended |
| `Gates.SpacedIsUncrowded` | include/stratforge/engine/cerebro.hpp:304-316 | master bars at least one bar apart are ordered and not crowded |
| `Gates.VisibleIsCausal` | include/stratforge/engine/cerebro.hpp:304-359 | with ordered master bars that are not crowded, what is visible after bar b is computed from the bars up to b alone |
| `Gates.FutureIsInvisible` | include/stratforge/engine/cerebro.hpp:304-359 | such data sets that agree up to bar b show the same context bars there |
| `Gates.CrowdedBarsLeak` | include/stratforge/engine/cerebro.hpp:304-316 | a series of crowded master bars that does leak |
| `Cerebros.Cerebro.AdvanceContext` | include/stratforge/engine/cerebro.hpp:332-358 | the inner loop moves cursor, count and line index of one feed together to where the gate stops |
| `Cerebros.Cerebro.OpenGate` | include/stratforge/engine/cerebro.hpp:318-359 | all context feeds are advanced, the master feed and every row are left alone |
| `Cerebros.Cerebro.CallStrategies` | include/stratforge/engine/cerebro.hpp:370-405 | each strategy gets next once entered, nextstart when all warmups are first met, prenext before |
| `Cerebros.Cerebro.CheckPlan` | include/stratforge/engine/cerebro.hpp:165-229 | a plan is refused exactly if a context feed is finer than feed 0 or a warmup is out of reach |
| `Cerebros.Cerebro.ProcessBar` | include/stratforge/engine/cerebro.hpp:318-422 | one master bar leaves the counts, cursors and callbacks that the specification gives for that bar |
| `Cerebros.Cerebro.Run` | include/stratforge/engine/cerebro.hpp:145-452 | the run ends as the plan demands, and its trace is the specified record of every master bar |
| `Cerebros.CallbackPhases` | include/stratforge/engine/cerebro.hpp:370-405 | callbacks form prenext*, at most one nextstart, then next*; nextstart falls on the first bar after which every feed has delivered at least its minimum period |
| `Cerebros.OneFeedStarts` | include/stratforge/engine/cerebro.hpp:370-405 | with one feed and minimum period p, nextstart is called on bar p - 1 |
| `Cerebros.VocabularyPlanRuns` | include/stratforge/engine/cerebro.hpp:165-229 | a plan over the vocabulary runs to its end if and only if no context feed stands before feed 0 in the table and every feed holds its warmup; otherwise it is refused |
| `Cerebros.NothingToRun` | include/stratforge/engine/cerebro.hpp:145-173 | without feeds or master bars nothing happens, without preloading a run is refused |
| `Cerebros.MasterIsCurrent` | include/stratforge/engine/cerebro.hpp:318-328 | in every record the master feed has delivered the bars up to the current one and stands on it |
| `Cerebros.RunNeverLooksAhead` | include/stratforge/engine/cerebro.hpp:304-359 | in every recorded bar of a run, whatever the other feeds are: each delivered bar of a context feed resampled from ordered master bars that are not crowded folds only bars already seen |
| `Cerebros.RunCountsExact` | include/stratforge/engine/cerebro.hpp:318-359 | in every record of a run over feeds with non-decreasing time stamps, `bars_delivered[k]` is the count of context bars whose period has ended by the master bar's close, and the line index is that count minus one once positive |
| `Cerebros.RunPastOnlyIff` | include/stratforge/engine/cerebro.hpp:304-359 | a whole run over ordered master bars never looks ahead through a context feed resampled from them if and only if no master bar closes after the period of the next one has ended; the other feeds may be anything |
| `Cerebros.RecordsAreCausal` | include/stratforge/engine/cerebro.hpp:304-405 | two runs whose master bars agree up to bar b, and whose context feeds are resampled from them or, of any origin, agree in the bars that have ended by its close, make the same record there |
| `Scanner.FindKey` | include/stratforge/engine/backtest_runner.hpp:191-225 | the index, depth and flag loop computes the scan specified on text |
| `Scanner.SkipValue` | include/stratforge/engine/backtest_runner.hpp:191-225 | the scan passes over any rendered value, nested objects, arrays and escaped strings included, and is back in its state |
| `Scanner.FindKeyIsFirstField` | include/stratforge/engine/backtest_runner.hpp:191-225 | on every rendered document it lands just after the colon of the first top-level field of that name, and reports none if there is none |
| `Scanner.OutsideExtends` | include/stratforge/engine/backtest_runner.hpp:191-225 | a key that is found is found at the same place if the text goes on |
| `FeedPlans.GetStringReads` | include/stratforge/engine/backtest_runner.hpp:86-96 | a string field without a quote inside is read back as written, white space before it skipped, whatever follows the object |
| `FeedPlans.GetIntegerReads` | include/stratforge/engine/backtest_runner.hpp:98-110 | a decimal integer field is read back likewise |
| `FeedPlans.SpecRoundTrip` | include/stratforge/engine/backtest_runner.hpp:163-175 | an object that describes a feed is read as that feed, its members in any order, among others, spaced at will; missing ones are defaults |
| `FeedPlans.ParseObjects` | include/stratforge/engine/backtest_runner.hpp:144-178 | the loop over the objects, with its inner scan for the closing brace, computes the function on texts that the laws are about |
| `FeedPlans.ParseFeeds` | include/stratforge/engine/backtest_runner.hpp:117-181 | so does the whole method |
| `FeedLists.ListReads` | include/stratforge/engine/backtest_runner.hpp:144-178 | a rendered list of such objects is read item by item, whatever follows it, if their braces are balanced |
| `FeedLists.FeedsRoundTrip` | include/stratforge/engine/backtest_runner.hpp:117-181 | from every document whose first top-level `feeds` field is such a list, in any layout, that list is read back if braces and brackets are balanced where they are counted |
| `FeedLists.NoFeedsField` | include/stratforge/engine/backtest_runner.hpp:117-123 | a document without a top-level `feeds` field has no feeds |
| `FeedLists.TidyFeedsRoundTrip` | include/stratforge/engine/backtest_runner.hpp:117-181 | so it is, in any layout, if no string in the list holds a brace or a bracket |
| `FeedCuts.UncutReads` | include/stratforge/engine/backtest_runner.hpp:144-178 | a list in which no object is closed early, up to any point of its text: read back exactly if the text is whole and every object balanced, and otherwise fewer feeds are read |
| `Quotes.NoKeyOutside` | include/stratforge/engine/backtest_runner.hpp:191-225 | a scan that starts inside a string takes separators for strings and finds none of the keys |
| `FeedSurvival.ListSurvivesIff` | include/stratforge/engine/backtest_runner.hpp:144-178 | for every list of specs whose strings have no quote or backslash, up to any point of its text: read back if and only if the text is whole and the braces inside every object are balanced |
| `FeedSurvival.FeedsSurviveIff` | include/stratforge/engine/backtest_runner.hpp:117-181 | for every such list in every document: with balanced brackets it survives if and only if every object is balanced, and otherwise if and only if no string closes it, its brackets are closed behind it, and the text up to there completes it; without a closing bracket behind it that is to say if and only if braces and brackets are balanced |
| `FeedSurvival.ReadWithIff` | include/stratforge/engine/backtest_runner.hpp:144-178 | the text of a list followed by any other is read as the list if and only if all objects are balanced and nothing more is read, or the first unbalanced one is not cut by its strings, its end is found further on, and the rest of the list is read after it |
| `FeedSurvival.ListRunsOn` | include/stratforge/engine/backtest_runner.hpp:124-142 | a list with unbalanced brackets is read back if and only if no string closes it, its brackets are closed behind it, and it is read back with the text up to there |
| `FeedSurvival.LaterTextRescues` | include/stratforge/engine/backtest_runner.hpp:117-181 | a document in which nothing is balanced and the feed survives |
| `FeedSurvival.StringsDecide` | include/stratforge/engine/backtest_runner.hpp:150-160 | whether an object is balanced is decided by its strings alone, read one after the other |
| `FeedSurvival.PlainFeedsSurvive` | include/stratforge/engine/backtest_runner.hpp:117-181 | a compact list without braces and brackets in its strings survives |
| `Calibration.ApplyIsotonic` | include/stratforge/corrective/pop_calibrator.hpp:68-95 | for two or more breakpoints in any order, the binary search ends in an interval that brackets the input and interpolates there; for sorted ones the result is the piecewise linear function |
| `Calibration.CalibrationBounded` | include/stratforge/corrective/pop_calibrator.hpp:68-95 | calibration stays within the first and last y, and within the neighbouring ones |
| `Calibration.CalibrationInterpolates` | include/stratforge/corrective/pop_calibrator.hpp:68-95 | between two breakpoints calibration is the line through them, and it is constant outside all of them |
| `Calibration.FewBreakpoints` | include/stratforge/corrective/pop_calibrator.hpp:68-95 | without breakpoints the prediction is returned as it is, and with one breakpoint its value |
| `Calibration.CalibrationMonotone` | include/stratforge/corrective/pop_calibrator.hpp:68-95 | calibration does not decrease |
| `Calibration.PlattIsLogistic` | include/stratforge/corrective/pop_calibrator.hpp:98-105 | both branches of the stable form are the same sigmoid 1 / (1 + exp(ax + b)), a probability |
| `Calibration.PlattIs` | include/stratforge/corrective/pop_calibrator.hpp:98-105 | times 1 + exp(ax + b) it is one |
| `Calibration.PlattRisesIff` | include/stratforge/corrective/pop_calibrator.hpp:98-105 | that sigmoid does not decrease if and only if a <= 0 |
| `Calibration.PolicyMonotone` | include/stratforge/corrective/pop_sizing_policy.hpp:31-79 | in every mode the size lies in [0, proposed] and does not decrease with the probability |
| `Calibration.PolicyDecides` | include/stratforge/corrective/pop_sizing_policy.hpp:31-79 | gate and hybrid mode reject, with size zero, exactly below the threshold; a passing gate leaves the size alone; otherwise the size is the proposed one times the power of the probability, whole at certainty |
| `Calibration.CalibratedSizing` | include/stratforge/corrective/pop_sizing_policy.hpp:31-79 | from raw prediction to size the composition is monotone and never enlarges |
| `Shadows.ShadowLedger.Tick` | include/stratforge/corrective/shadow_ledger.hpp:41-59 | the loop splits the aged shadows into open ones and records, in order |
| `Shadows.ShadowLedger.FlushCensored` | include/stratforge/corrective/shadow_ledger.hpp:61-72 | every open shadow is reported censored and the ledger emptied |
| `Shadows.ShadowLife` | include/stratforge/corrective/shadow_ledger.hpp:37-59 | a shadow is closed by exactly the tick that completes its horizon, one without horizon by none; the others only age |
| `Shadows.ExpiringIs` | include/stratforge/corrective/shadow_ledger.hpp:102-126 | a closed shadow's record is a completed round trip of exactly the horizon, from its entry price to the close shown by its feed, net of both commissions |
| `Shadows.FlushedIs` | include/stratforge/corrective/shadow_ledger.hpp:61-72 | what is flushed is marked likewise and has no result yet |
| `Shadows.SidesMirror` | include/stratforge/corrective/shadow_ledger.hpp:102-126 | a buy and a sale have opposite gross results, and a buy gains exactly if the price has risen |
| `Collectors.CandidateCollector.OnPreOrder` | include/stratforge/corrective/candidate_collector.hpp:52-133 | verdict, log, registry, id counter and shadow ledger after the hook, for any inference answer |
| `Decisions.HookAnswers` | include/stratforge/corrective/candidate_collector.hpp:52-133 | switched off or asked about an order against the position, the hook passes the order as proposed and remembers nothing; otherwise it logs the proposal under the next id, passes it as proposed where it only watches, and else with the size inference gave; what is rejected becomes a shadow of the proposed size at the close shown |
| `Decisions.ProposalBecomesOrder` | include/stratforge/corrective/candidate_collector.hpp:52-133 | in a run, the order that a proposal adds has the size decided for its candidate: that of inference, or the proposed one where the collector only watches |
| `Decisions.CloseIsWhole` | include/stratforge/broker/broker.hpp:298-307 | closing through the hook submits the whole position, without a candidate |
| `Decisions.OrdersAreAsDecided` | include/stratforge/corrective/candidate_collector.hpp:52-133 | in every reachable state, orders with a candidate id have the size, side and feed decided for that candidate, and open shadows those that a rejected candidate proposed |
| `Decisions.NoOrderIsEnlarged` | include/stratforge/corrective/pop_sizing_policy.hpp:31-79 | if inference calibrates and applies the policy, no order of a candidate is ever larger than proposed |
| `Decisions.RecordsAreOfTrades` | include/stratforge/corrective/candidate_collector.hpp:135-158 | in every reachable state each record of a trade has the result, commission and stamps of a closed trade with its id |
| `Decisions.OpenTradesReported` | include/stratforge/corrective/candidate_collector.hpp:176-219 | `on_stop` reports exactly the open trades with an id, marked at the last close, or at zero without a feed |
| `Collectors.CandidateCollector.OnTradeClosed` | include/stratforge/corrective/candidate_collector.hpp:135-158 | a closed trade with a candidate id is recorded once |
| `Collectors.CandidateCollector.OnBar` | include/stratforge/corrective/candidate_collector.hpp:160-174 | one tick of the shadow ledger |
| `Collectors.CandidateCollector.OnStop` | include/stratforge/corrective/candidate_collector.hpp:176-219 | open trades with an id and open shadows are recorded censored |
| `ClaimLaws.PostCarries` | include/stratforge/broker/broker.hpp:962-1021 | a fill gives its candidate id to at most one new trade, takes none away, and forgets no closed trade |
| `ClaimLaws.ProcessClaims` | include/stratforge/broker/broker.hpp:359-447 | over a pass no more trades carry an id than completed orders do |
| `Lifecycle.IdsIssuedOnce` | include/stratforge/corrective/candidate_collector.hpp:70-113 | in every reachable state the candidates carry the ids 1, 2, ... once each, over all drains, and the registry knows them |
| `Lifecycle.OutcomeOnce` | include/stratforge/corrective/candidate_collector.hpp:135-228 | no candidate has two outcome records, over all drains and the final flush, for any verdicts of inference whose accepted sizes are positive and on the lot grid; every record nets its commission and is labelled by the result |
| `Lifecycle.EveryClaimHasOutcome` | include/stratforge/corrective/candidate_collector.hpp:135-228 | every trade with a candidate id and every candidate rejected on a valid feed has exactly one |
| `Lifecycle.RejectedHasOneOutcome` | include/stratforge/corrective/candidate_collector.hpp:115-130 | a candidate rejected on a valid feed never becomes an order; its one outcome is a shadow held for exactly the horizon, or censored |
| `Lifecycle.ShadowOnTime` | include/stratforge/corrective/shadow_ledger.hpp:41-59 | in every reachable state that shadow has been reported exactly if the horizon's number of ticks have passed since |
| `Optimizers.GenerateParamGrid` | include/stratforge/engine/optimizer.hpp:33-59 | the nested loops compute the product of the ranges; no ranges give an empty grid |
| `Optimizers.GridIsRowMajor` | include/stratforge/engine/optimizer.hpp:33-59 | the grid has the product of the range sizes and holds every choice at its mixed-radix number, the first range being the most significant |
| `Optimizers.GridEntry` | include/stratforge/engine/optimizer.hpp:33-59 | with distinct names, entry i gives each parameter the value at its digit of i and nothing else |
| `Optimizers.DigitsRoundTrip` | include/stratforge/engine/optimizer.hpp:33-59 | digits and number determine each other |
| `Optimizers.ScheduleIndependent` | include/stratforge/engine/optimizer.hpp:101-151 | for every interleaving, once all workers have returned each index has been claimed exactly once and the results are the sequential map over the grid |
| `Optimizers.StepProgresses` | include/stratforge/engine/optimizer.hpp:105-140 | every step of a worker that has not returned leaves less to do |
| `Optimizers.NotCloneableIsEmpty` | include/stratforge/engine/optimizer.hpp:119-126 | if feeds cannot be cloned every result stays empty |
| `Optimizers.NotCloneableGivesUp` | include/stratforge/engine/optimizer.hpp:105-126 | without clones every worker gives up after its first claim: no more combinations are claimed than there are workers |
| `Optimizers.WorkerPool.Work` | include/stratforge/engine/optimizer.hpp:105-140 | one step of one worker on the shared index and results |
| `Optimizers.Optimize` | include/stratforge/engine/optimizer.hpp:86-154 | under a schedule that lets every worker return, the results are the sequential map, or all empty without clones |

## Left out

- Floating point: rounding, NaN and overflow are idealised away by exact reals; 64-bit
  overflow of time stamps and the year range of the standard calendar by unbounded integers.
- Instruments, venues, FX and further currencies: the ledger is the path of a broker without
  instruments, in its base currency. `set_cash` and `deposit` in mid-run are not part of it.
- Callbacks that call back into the broker: notifications are what a method has done, and a
  run is a sequence of calls. The pre-order hook is an arbitrary verdict per submission.
- Orders are values, because the source copies them between two vectors; what cannot change
  after submission is grouped in `Terms`, what an execution writes in `Execution`.
- Live order submission and the venue connector: only the recovery of fills is modelled, for
  fills that do not reverse the trade they report on; what a report after the terminal one
  would do is not.
- A feed's seven lines are one sequence of rows with one cursor. Open interest is not carried.
- A second `preload` on a filled `ResampledFeed` appends its rows again, as the method's
  contract says; the run models feeds that have been loaded once.
- Cerebros.Cerebro.Run: models the plan checks, the gate, the feed cursors and the callback
  phases of loaded feeds; the calls into broker, analyzers, observers and collector are modelled
  in their own modules or not at all, and the warmup time stamp is not recorded.
- Cerebros.Cerebro.ProcessBar: the same, for one bar.
- Feeds.ResamplerRows: the rows without their output time stamps (end-of-day conventions).
- BackBrokers.BackBroker.CancelOrder: the back-test branch; the live branch is
  `LiveFills.LiveBroker.CancelOrder`, without the request to the venue.
- LateParents.StaleIff: speaks of the kept list when the children are cancelled; the pending
  list on return is the matter of `StaleOrders.MirrorOnReturnIff`.
- Collectors.CandidateCollector.OnPreOrder: the feature vector of the snapshot is left out,
  because the inference that reads it is an arbitrary answer.
- Collectors.CandidateCollector.OnTradeClosed: the feature builder's trade count is left out.
- Collectors.CandidateCollector.OnBar: the feature builder's clock and equity peak are left out.
- FeedPlans.GetIntegerReads: reads decimal integers, because that is all a feed plan holds;
  fractions and exponents of `std::stod` are not modelled.
- JSON numbers and literals are any text without structural characters, and code points are
  characters.
- Inference is an arbitrary answer per candidate, `std::exp` any positive increasing function
  with exp(x) exp(-x) = 1, `std::pow` any increasing function on [0, 1]; the feature builder
  and the preflight checks are not part of this model.
- A run of one parameter combination is a function of its parameters; threads are steps in an
  arbitrary order, with the claim of an index as one step because it holds the lock.
- Strategies, observers, analyzers, indicators, CSV and Parquet reading, date parsing, result
  formatting and benchmarks: I/O, or formulas over single windows that would add easy members.
