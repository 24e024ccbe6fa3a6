# CoinBot, modelled and proved in Dafny

CoinBot trades several KRW markets on Upbit with an RSI mean-reversion strategy. Each market has one
worker: a sequential machine over an order engine, a strategy and shared budgets. This project models
that machine and proves what it keeps over every run, then the streaming indicators against their batch
definitions, and the loop algorithms of the tools and of request signing.

Money, volumes and prices are exact reals; timestamps, order ids and client identifiers are integers of
which only equality matters (0 is the empty string). All theorems are about exact arithmetic.

## How it is built

- `Domain`, `Account`, `OrderStore`, `TradeDedupe`, `Engine`, `Strategy`, `Messages`, `Worker`: the
  program. Classes hold the fields the source updates in place; each method is proved to take its state
  to a function of the old state, and the theorems are about those functions.
- `Lifecycle`, `Lockstep`, `Settlement`, `EndToEnd`, `OrderStart`, `Outcomes`, `Decisions`,
  `CoinSafety`, `EntryPrice`, `Hypotheses`, `Candles`, `Exits`, `Timeouts`: the theorems about one worker's runs.
- `Markets`, `Fleet`, `Operations`, `Sections`: all workers together. A worker's step is a run of engine
  operations, an operation a list of locked sections; whole steps, or all sections, interleave in any order.
- `RingBuffer`, `Rsi`, `Windows`: the indicators. `Backtest`, `TradeLog`, `Pairing`, `Gaps`, `Wire`, `QueryText`:
  the tools and encoders.

A worker run is a list of steps: an order message, a candle update, a recovery, a timeout check, a poll
of engine events. What comes from outside (messages, lookups, replies to posts, fresh ids, the clock) is
part of the step.

## What the exchange has to keep

The code relies on a contract with the exchange. `Lockstep.Routed` is the part that the lifecycle and the
lockstep need: an order's market and side never change, and a post is answered with a new, non-empty id.
`Settlement.Good` adds, on the message's own fields, what exact settlement needs: a trade message carries the stored totals plus its
own fill, or repeats one already counted; other open messages carry the stored totals; terminal and
looked-up totals only grow, or do not know the funds yet; a buy's cost with its fees stays within its
reservation, a sell within its request and its fees within its funds.

`Hypotheses` shows what each condition is for, given the others. The books stay exact if and only if a
message's totals are the settled ones (plus the fill); if and only if looked-up totals only grow; if and
only if a fill stays within the reservation. The coin stays non-negative if and only if a sell fills no
more than was there. A terminal snapshot on the
wrong side, of a buy or a sell, and a buy answered with an empty id block the engine for good; a sell
answered with an empty id leaves the engine free and the strategy stuck for good. A lost tail of trades is
allowed; the bounded queue that drops its oldest entry is why anything can be lost at all.

## Where the code and its comments differ

- `src/trading/allocation/AccountManager.h:262-265` describes a correction for over-selling that
  `src/trading/allocation/AccountManager.cpp:327-334` does not do. The model follows the code.
- `src/app/MarketEngineManager.cpp:672` announces a second lookup among the open orders; the code only
  looks the order up by id.
- `src/app/MarketEngineManager.cpp:820-822` waits for the next state change after a timeout; recovery clears the
  flag it waits on (`:766-767`), so a pending order is looked up again after every further timeout
  (`Timeouts`).
- `tools/candle_rsi_backtest.py:217-224` calls its volatility aligned with the bot; with a window of 2 the
  bot reads zero (`Windows.WindowOfTwo`), and `Backtest.SignalsAgree` says when the filters differ.
- `tools/fetch_candles.py:174` promises to round the start up; a start with seconds in a boundary minute is
  rounded down (`Gaps.GapsAreExact` says when that shows).
- `streamlit/app.py:218` takes a next buy at time 0 for no next buy; `Pairing.PairsExactlyIff` says
  exactly when that shows.
- `src/api/upbit/UpbitExchangeRestClient.cpp:80-86` encodes values but not keys;
  `Wire.HashIsRawIff` gives the exact condition on keys.

## Model

| member | source | states |
|---|---|---|
| `EndToEnd.LostSuffixCostsNothing` | `src/app/MarketEngineManager.cpp:387-443` | fills heard in order, any repeated straight after itself, by trade messages and answered lookups in any mix, among candles, polls, timeout checks, unanswered or incomplete lookups and foreign messages, any suffix lost, then a complete terminal snapshot by WebSocket, recovery or timeout: KRW and coin moved by exactly the volume, funds and fees of all fills |
| `EndToEnd.DeliveryDoesNotMatter` | `src/app/MarketEngineManager.cpp:676-768` | two such deliveries of the same fills, ended at the same mark price, leave the same balances |
| `Outcomes.FillsDecidePosition` | `src/trading/strategies/RsiMeanReversionStrategy.cpp:438-571` | after any such delivery and whatever comes before the next poll: without fills a buy leaves the strategy Flat and a sell InPosition with its levels unchanged; fills leave a buy InPosition, and a sell Flat without entry, stop and target exactly when no coin is left, else InPosition with its levels unchanged |
| `Outcomes.OrderResolves` | `src/trading/strategies/RsiMeanReversionStrategy.cpp:438-571` | the same over every run of an open order, whichever message, lookup or timeout ends it |
| `Outcomes.StepQueuesEnd` | `src/engine/MarketEngine.cpp:290-320` | whichever step ends an order, the last queued event tells by its effect whether there were fills and, of a sell, whether coin is left |
| `Outcomes.OtherEventsIgnored` | `src/trading/strategies/RsiMeanReversionStrategy.cpp:417-458` | events of other orders and reports of open ones change nothing |
| `Decisions.OrderedIff` | `src/trading/strategies/RsiMeanReversionStrategy.cpp:242-360` | over every run, at the candle it confirms: a buy of krw / 1.001 * utilization is posted if and only if the worker rests with coin worth less than 5000, that amount is at least 5000, the backtest's market filter passes where the live one is not blind, and the RSI of the confirmed closes is at or below oversold; a sell of all coin if and only if it rests with coin worth at least 5000 and that RSI is at or above overbought or the loss or gain since the entry has reached its percentage |
| `Decisions.RunDecides` | `src/app/MarketEngineManager.cpp:504-579` | the whole of it: what is posted, the phase, pending identifier and levels afterwards, what a REST error leaves, and that the check on the new price follows |
| `Decisions.RunChecks` | `src/app/MarketEngineManager.cpp:465-502` | an update of the same candle, or the first one, only makes the check between candles |
| `Decisions.CandleDecides` | `src/trading/strategies/RsiMeanReversionStrategy.cpp:127-360` | the decision of a resting strategy, with its correction to the coin it is shown, from the closes alone |
| `Decisions.CheckDecides` | `src/app/MarketEngineManager.cpp:465-502` | between candles: everything is sold if and only if a percentage is reached and this candle's sell was not refused before; a refused sell leaves the position and is remembered |
| `Decisions.StartupIsFresh` | `src/app/MarketEngineManager.cpp:55-143` | every startup is a state these runs start from |
| `OrderStart.CandleToBooks` | `src/app/MarketEngineManager.cpp:302-324` | from the candle whose step posts an order, buy or sell, over any delivery of its fills to its terminal snapshot: KRW and coin move from what they were before the candle by exactly the totals of all fills |
| `OrderStart.CandleStartsOrder` | `src/app/MarketEngineManager.cpp:447-579` | whichever candle step leaves an order active, an entry, an exit at a confirmed candle or an intrabar stop or target: the order is settled at zero against the budget before the step and none of its fills is counted |
| `OrderStart.CandlePosts` | `src/app/MarketEngineManager.cpp:447-579` | a candle step of a worker without an order either posts one, settled at zero, or changes nothing in the engine but the mark price |
| `EndToEnd.PrefixIsGood` | `src/app/MarketEngineManager.cpp:302-324` | every such delivery keeps the contract the settlement theorems ask for, and the store holds exactly the totals counted so far |
| `EndToEnd.PassBrings` | `src/app/MarketEngineManager.cpp:302-324` | a whole pass of the worker loop continues a delivery: the recovery it may start with, its item, its poll and its timeout check, with whatever each lookup answers |
| `EndToEnd.RecoveryHeard` | `src/app/MarketEngineManager.cpp:676-768` | recovery that is not answered, answered without funds, or answered with the totals of more fills brings the stored totals to the fills then counted |
| `EndToEnd.OtherMessageHeard` | `src/app/MarketEngineManager.cpp:366-444` | so do the order messages that are no fills, of this order or of others |
| `EndToEnd.MessageHeard` | `src/engine/MarketEngine.cpp:154-221` | one trade message, new or repeated, brings the stored totals to those of the fills heard |
| `Settlement.RunSettlesOrder` | `src/engine/MarketEngine.cpp:500-584` | path independence over whole worker runs: while an order is open the balances are a function of its stored totals; the step that removes it leaves exactly what its terminal snapshot prescribes |
| `Settlement.StepSettles` | `src/app/MarketEngineManager.cpp:302-324` | every kind of worker step keeps an open order settled or closes it on the delivered terminal totals |
| `Settlement.TradeSettles` | `src/engine/MarketEngine.cpp:154-221` | a new trade moves coin, KRW, token and cost basis by its own amounts; a repeated one moves nothing |
| `Settlement.DeltaSettles` | `src/engine/MarketEngine.cpp:516-573` | settling the difference to a cumulative snapshot reaches the snapshot totals, or refuses when funds are unknown |
| `Settlement.SnapshotSettles` | `src/engine/MarketEngine.cpp:224-328` | a snapshot whose totals are settled keeps the order settled, or closes it: reservation back, sell dust swept, order gone |
| `Settlement.ReconcileSettles` | `src/engine/MarketEngine.cpp:500-584` | a looked-up snapshot is refused without any change, settles, or closes on its totals |
| `Settlement.OrderSettles` | `src/app/MarketEngineManager.cpp:366-444` | any order message, for this order or another one, leaves it settled or closes it |
| `Settlement.RecoverySettles` | `src/app/MarketEngineManager.cpp:676-768` | so does recovery by lookup, whether or not the lookup answers |
| `Settlement.CandleLeavesPendingOrder` | `src/app/MarketEngineManager.cpp:447-579` | while an order is pending, candles change nothing in the engine but the mark price |
| `Settlement.ReplayChangesNothing` | `src/engine/MarketEngine.cpp:516-583` | applying the same looked-up snapshot again changes nothing |
| `Settlement.ClosedIsDetermined` | `src/trading/allocation/AccountManager.cpp:246-376` | terminal totals and mark price determine the closed balances |
| `Settlement.BuyFillAddsCost` | `src/trading/allocation/AccountManager.cpp:288-299` | the weighted average keeps coin times average equal to the total cost of the fills |
| `Settlement.ReservationCoversFill` | `src/trading/allocation/AccountManager.cpp:259-270` | a fill within the reservation fits what is left of it, so the over-reservation clamp does not fire |
| `Settlement.FundsFitReservation` | `src/engine/MarketEngine.cpp:434-447` | fills within the requested amount and fees up to 0.1% are within the reservation |
| `Settlement.SubmitStartsSettled` | `src/engine/MarketEngine.cpp:49-151` | an accepted order starts out settled at zero |
| `Hypotheses.TradeNeedsNextTotals` | `src/engine/MarketEngine.cpp:162-219` | after a trade message the books stay settled if and only if its totals are the stored ones plus this fill (so a lost fill in the middle, or one already counted by a lookup, breaks them) |
| `Hypotheses.SnapshotNeedsSettledTotals` | `src/engine/MarketEngine.cpp:259-267` | after an open snapshot the books stay settled if and only if it carries the settled totals |
| `Hypotheses.LookupNeedsGrowingTotals` | `src/engine/MarketEngine.cpp:516-583` | after a settled lookup the books stay exact if and only if the totals only grow |
| `Hypotheses.OrphanBlocksEngine` | `src/engine/MarketEngine.cpp:72-99` | a reservation, or an active sell, whose order the store does not know is never cleared, over every run, and every later order is refused |
| `Hypotheses.EmptyIdOrphansBuy` | `src/engine/MarketEngine.cpp:120-148` | a buy answered with an empty order id is such a reservation |
| `Hypotheses.EmptyIdStrandsSell` | `src/engine/MarketEngine.cpp:101-148` | a sell answered with an empty order id leaves the engine as it was and the strategy waiting for an exit on nothing |
| `Hypotheses.StrandedForever` | `src/app/MarketEngineManager.cpp:302-324` | over every run it stays there: no message, lookup, timeout or candle frees it |
| `Hypotheses.WrongSideOrphans` | `src/engine/MarketEngine.cpp:290-327` | an active order, buy or sell, whose terminal snapshot names the other side is orphaned |
| `Hypotheses.TradeNeedsRoom` | `src/trading/allocation/AccountManager.cpp:259-305` | with the right totals the books follow a fill if and only if a buy so far, fees included, is within its reservation and a sell fee within its funds |
| `Hypotheses.FillNeedsRoom` | `src/trading/allocation/AccountManager.cpp:259-270` | the over-reservation clamp fires exactly when a fill costs more than is left |
| `Hypotheses.LookupNeedsRoom` | `src/engine/MarketEngine.cpp:538-571` | the same for what a lookup adds to a buy |
| `Hypotheses.SellNeedsCoin` | `src/trading/allocation/AccountManager.cpp:327-334` | the coin balance stays non-negative if and only if a sell fills no more than was there |
| `Lifecycle.RunConservesKrw` | `src/trading/allocation/AccountManager.cpp:160-305` | over every engine run available plus reserved changes only by settled fills, reserved is the remainder of the one active token, and neither goes below zero |
| `Operations.StepIsOps` | `src/app/MarketEngineManager.cpp:366-837` | every step of a worker, candles, messages, lookups and timeouts, does to its engine what a listed run of the engine's own admissible operations does |
| `Operations.RunIsOps` | `src/app/MarketEngineManager.cpp:302-324` | and so does every run of a worker, so what is proved of engine runs holds of it |
| `Operations.WorkerConservesKrw` | `src/trading/allocation/AccountManager.cpp:160-305` | over every worker run the market's KRW changes only by settled fills, reserved is the remainder of the one active token, and neither goes below zero |
| `Operations.OnlyMessagesMoveKrw` | `src/app/MarketEngineManager.cpp:447-617` | candles, whatever they order, and polls move none |
| `Operations.FleetConservesKrw` | `src/trading/allocation/AccountManager.cpp:160-408` | over every interleaving of the workers the KRW of all markets together changes only by the fills settled in it |
| `Operations.FleetHoldsTheAccount` | `src/trading/allocation/AccountManager.cpp:414-489` | from the rebuilt budgets on, all markets together hold the account's free KRW plus what sells brought in less what buys cost |
| `Lifecycle.RunKeepsInv` | `src/engine/MarketEngine.cpp:49-343` | over every run the store holds only open orders of the market, at most one, exactly the active buy or the active sell |
| `Lifecycle.FinalizeReturnsRemainder` | `src/trading/allocation/AccountManager.cpp:378-408` | finalizing returns exactly the remainder: the negative clamp and the dust sweep do nothing |
| `Lifecycle.BuyFillMovesCost` | `src/trading/allocation/AccountManager.cpp:246-305` | a buy fill takes its cost from the reservation and nothing from available KRW |
| `Lifecycle.ApplyMovesFlow` | `src/engine/MarketEngine.cpp:154-584` | each operation moves the held KRW by its settled fills |
| `Lifecycle.LateMessagesIgnored` | `src/engine/MarketEngine.cpp:168-176` | messages about a removed order leave budgets, events, orders and active ids unchanged; a repeated trade changes nothing at all |
| `Lifecycle.RunKeepsOthers` | `src/engine/OrderStore.cpp:58-95` | over every run an engine leaves the orders of the other markets alone |
| `Lifecycle.ClosedOrderStaysClosed` | `src/engine/MarketEngine.cpp:290-327` | a terminal snapshot removes its order for good |
| `Lifecycle.SubmitKeepsInv` | `src/engine/MarketEngine.cpp:49-151` | a refused submit restores the whole state |
| `Lifecycle.SubmitAnswers` | `src/engine/MarketEngine.cpp:49-151` | which of the four refusals, or the acceptance, a submit answers, each if and only if: shape of the request, market, open orders, funds for cost and margin, REST reply |
| `Lifecycle.OtherMarketsIgnored` | `src/engine/MarketEngine.cpp:154-238` | trades and snapshots of another market change nothing |
| `Lifecycle.PostedAsAsked` | `src/engine/MarketEngine.cpp:119-148` | an accepted post is stored as it was asked for, nothing filled, Pending |
| `Lifecycle.TradePublishes` | `src/engine/MarketEngine.cpp:177-200` | a new fill of a stored order is published once, under its own identifier or else the order's; nothing else is |
| `Lifecycle.SnapshotFillsIn` | `src/engine/MarketEngine.cpp:240-279` | a snapshot's progress is taken over, what was asked for only filled in where it was missing |
| `Lifecycle.LookupAppliesIff` | `src/engine/MarketEngine.cpp:500-584` | a looked-up order is applied if and only if it is stored, and what it adds has known funds and belongs to the active order; otherwise nothing changes |
| `Lifecycle.OthersKeepToken` | `src/engine/MarketEngine.cpp:467-485` | only the active buy gives up its reservation |
| `Lockstep.RunKeepsInStep` | `src/app/MarketEngineManager.cpp:302-324` | every reachable worker state is in step |
| `Lockstep.ReachableStatesAreInStep` | `src/app/MarketEngineManager.cpp:55-143` | from startup, whatever position the exchange reports |
| `Lockstep.PendingIffOrderOrEvent` | `src/trading/strategies/RsiMeanReversionStrategy.cpp:438-571` | PendingEntry (PendingExit) exactly when the engine holds an active buy (sell) with that identifier or its terminal event is queued; the rollback for unexpected effects is unreachable |
| `Lockstep.DecisionsAreAccepted` | `src/engine/MarketEngine.cpp:49-99` | in step, only a REST error can refuse what the strategy decides: never funds, an open order or the shape of the request |
| `Lockstep.DecisionIsValid` | `src/trading/strategies/RsiMeanReversionStrategy.cpp:242-414` | every decided order is valid, for the market, and its reservation fits the available KRW |
| `Lockstep.PollKeepsStep` | `src/app/MarketEngineManager.cpp:582-617` | delivering queued events, terminal one last, returns the strategy to rest |
| `Lockstep.CandleKeepsStep` | `src/app/MarketEngineManager.cpp:447-579` | a candle update, with its submits and rollbacks, stays in step |
| `Lockstep.TradeMessageKeepsRequest` | `src/api/upbit/mappers/MyOrderMapper.h:61-155` | a trade message is never terminal and never overwrites what the order asked for |
| `Lockstep.HandleMyOrderUnfolds` | `src/app/MarketEngineManager.cpp:376-443` | a trade goes trade first, then snapshot; a terminal message without a trade goes through reconciliation |
| `Messages.SnapshotCarries` | `src/api/upbit/mappers/MyOrderMapper.h:61-171` | the mapped snapshot has the message's own volume, funds, fee, remaining volume, side and identifier, and is terminal exactly for done, cancel, prevented and unknown states |
| `Messages.SnapshotQuotes` | `src/api/upbit/mappers/MyOrderMapper.h:61-155` | a limit order is quoted by price and volume, a market sell by its volume, a market buy by its total, a fill by nothing |
| `Messages.TradeCarries` | `src/api/upbit/mappers/MyOrderMapper.h:61-155` | the mapped trade has the message's own price and volume, their product as funds, and its fee or 0.0005 of that |
| `CoinSafety.CoinNeverNegative` | `src/trading/allocation/AccountManager.cpp:307-337` | over every run the coin balance is never negative and a pending sell never exceeds it |
| `CoinSafety.ReachableCoinNonNegative` | `src/trading/allocation/AccountManager.cpp:414-489` | from every startup |
| `CoinSafety.StrategySellsAll` | `src/trading/strategies/RsiMeanReversionStrategy.cpp:291-414` | every sell asks for the whole balance it was shown |
| `CoinSafety.FinishedSellIsReported` | `src/engine/MarketEngine.cpp:299-320` | whatever ends a sell queues its report; with fills it says Closed exactly when the balance is zero |
| `CoinSafety.NothingSubmitted` | `src/app/MarketEngineManager.cpp:366-444` | outside of candles no order becomes active |
| `EntryPrice.EntryPriceAgreement` | `src/trading/strategies/RsiMeanReversionStrategy.cpp:471-485` | for a buy from zero coin, over every run, the strategy entry price equals the account average if and only if no fill was streamed or the streamed fills cost as much per coin as the whole order (so always with one route only) |
| `EntryPrice.EntryIsAveragePrice` | `src/trading/strategies/RsiMeanReversionStrategy.cpp:458-500` | for every sequence of fill events and the report of a buy: the entry is the average price of the fills with a volume, without any that of the report, without its funds the last price told; none is set unless it is positive |
| `EntryPrice.FillsReachStrategy` | `src/trading/strategies/RsiMeanReversionStrategy.cpp:417-436` | while the buy is open the strategy has counted, or will count with the queued events, exactly the streamed fills |
| `EntryPrice.ClosingStepReports` | `src/engine/MarketEngine.cpp:308-320` | the step that closes a buy queues one report with the terminal totals |
| `EntryPrice.EntryBegins` | `src/app/MarketEngineManager.cpp:447-579` | the candle step that leaves the worker waiting for an entry ends in the state these runs start from |
| `Fleet.EachWorkerRunsAlone` | `src/app/MarketEngineManager.cpp:160-179` | for every interleaving of whole worker steps over the shared budgets and store, each worker, its budget and its orders are what its own steps alone make of them |
| `Fleet.FleetKeepsInStep` | `src/app/MarketEngineManager.cpp:160-179` | and each worker stays in step with its engine |
| `Fleet.FleetStartsInStep` | `src/app/MarketEngineManager.cpp:55-143` | from startup |
| `Fleet.NextIsOwn` | `src/engine/MarketEngine.cpp:49-584` | a worker step commutes with forgetting the other markets orders, and leaves those alone |
| `Markets.InterleavingIsIndependent` | `src/trading/allocation/AccountManager.cpp:160-408` | for every schedule and every adaptive program, budget, token, live orders and everything the worker saw are those of its own turns run alone |
| `Markets.OthersTurnUnseen` | `src/engine/OrderStore.cpp:44-95` | a turn of another market is invisible |
| `Markets.OwnTurnDependsOnView` | `src/trading/allocation/AccountManager.cpp:160-194` | a turn depends on the market view alone, not on the token counter |
| `Sections.WorkersInterleave` | `src/app/MarketEngineManager.cpp:160-179` | whole runs of all workers cut into their locked sections and interleaved in any order: a market that has taken all its sections has the budget, the token and the orders of its worker's run alone |
| `Sections.PlansInterleave` | `src/trading/allocation/AccountManager.cpp:160-408` | for every schedule and all lists of sections, a market ends on what its own list leaves when executed alone |
| `Sections.OpIsSections` | `src/engine/MarketEngine.cpp:49-584` | submit, trade, snapshot and reconciliation each do to budget, token and orders exactly what their calls into account and store do, one after another |
| `Sections.SectionIsDone` | `src/trading/allocation/AccountManager.cpp:160-408` | a locked section changes nothing of its market but budget, token and orders, and depends on nothing else |
| `Sections.PlanOwn` | `src/engine/OrderStore.cpp:44-95` | over every run the sections name only orders of the market's own, if its messages and replies do |
| `Candles.ConfirmsRunEnds` | `src/app/MarketEngineManager.cpp:504-538` | for every stream the confirmed candles are exactly the last update of each maximal run of equal timestamps but the last run; RSI, delayed close and, on positive closes, volatility window are those of the confirmed closes |
| `Candles.StartupConfirmsRunEnds` | `src/app/MarketEngineManager.cpp:95-127` | from startup on |
| `Candles.DuplicateCheckNeverActs` | `src/trading/strategies/RsiMeanReversionStrategy.cpp:133-142` | the strategy never sees a confirmed timestamp twice in a row |
| `Candles.OtherCandlesIgnored` | `src/trading/strategies/RsiMeanReversionStrategy.cpp:127-142` | a candle of another market or one already seen changes nothing |
| `Candles.NeighboursDiffer` | `src/app/MarketEngineManager.cpp:512-521` | neighbouring confirmed candles differ in timestamp, and from the open one |
| `Candles.OneRefusalPerCandle` | `src/app/MarketEngineManager.cpp:465-502` | at most one intrabar exit is refused while a timestamp lasts |
| `Candles.RefusalIsRemembered` | `src/app/MarketEngineManager.cpp:469-501` | a refused exit is remembered for exactly this timestamp and blocks the next try |
| `Candles.MarkIsLastClose` | `src/app/MarketEngineManager.cpp:447-579` | over every run the mark price that tells dust is the close of the last candle update |
| `Exits.RunExitsByPercent` | `src/trading/strategies/RsiMeanReversionStrategy.cpp:362-414` | in every state of a run an intrabar exit is ordered exactly when a sellable amount is held and the loss since entry has reached stopLossPct or the gain profitTargetPct |
| `Exits.IntrabarExitIffPercentReached` | `src/trading/strategies/RsiMeanReversionStrategy.cpp:362-414` | the same for one state whose levels belong to its entry |
| `Exits.RunKeepsLevels` | `src/trading/strategies/RsiMeanReversionStrategy.cpp:604-612` | over every run the entry price is positive, and stop and target are its own, known together with it |
| `Exits.StartupHasLevels` | `src/trading/strategies/RsiMeanReversionStrategy.cpp:86-125` | from startup |
| `Exits.SyncSetsLevels` | `src/trading/strategies/RsiMeanReversionStrategy.cpp:86-125` | startup with coin and a price is InPosition at that price with its levels, anything else Flat without |
| `Timeouts.TimeoutFlagNeverSeen` | `src/app/MarketEngineManager.cpp:822-834` | the flag that holds back a second timeout is never set at a step boundary, because recovery itself resets it |
| `Timeouts.TimeoutsAreApart` | `src/app/MarketEngineManager.cpp:796-837` | two timeout recoveries are at least one timeout apart, whatever happens between them |
| `Timeouts.RecoversWhenDue` | `src/app/MarketEngineManager.cpp:796-837` | while an order stays pending and is not looked up, a check recovers both active orders if and only if the timeout has passed since the first check that saw it; every check publishes that it is pending |
| `Timeouts.IdleCheckRests` | `src/app/MarketEngineManager.cpp:796-812` | a check without a pending order looks nothing up and ends the watch |
| `Timeouts.RefusedIsLookedUp` | `src/app/MarketEngineManager.cpp:302-324` | a message that ends an order without its funds changes nothing but asks for a recovery, and whatever comes in between the next pass begins with the lookups |
| `Timeouts.RefusedAsksForRecovery` | `src/app/MarketEngineManager.cpp:420-443` | a recovery is asked for exactly when a message ends an order and cannot be applied |
| `Timeouts.ItemsAreHandled` | `src/app/MarketEngineManager.cpp:342-364` | an order message, a candle and a request to synchronise are each handled by their one step, the last by looking up both active orders |
| `TradeDedupe.MarkKeepsConsistent` | `src/engine/MarketEngine.cpp:627-646` | the seen set is the contents of the queue, without repeats, within the limit |
| `TradeDedupe.AcceptedAtMostOncePerWindow` | `src/engine/MarketEngine.cpp:627-646` | an accepted key is refused until as many other keys as the limit were accepted |
| `TradeDedupe.WindowIsTight` | `src/engine/MarketEngine.cpp:639-643` | and accepted again right after |
| `TradeDedupe.SameTradeIff` | `src/engine/MarketEngine.cpp:586-625` | two trades count as one exactly if their ids agree, or neither has one and all their fields agree |
| `Account.ReservationToken.Move` | `src/trading/allocation/AccountManager.cpp:27-38` | moving hands the reservation over and switches the source off |
| `Account.ReservationToken.AddConsumed` | `src/trading/allocation/AccountManager.cpp:47-53` | spending, capped at the amount |
| `Account.ReservationToken.Destroy` | `src/trading/allocation/AccountManager.cpp:40-45` | only a token that still owns its reservation gives the remainder back |
| `Account.ReservationToken.Deactivate` | `src/trading/allocation/AccountManager.h:119` | the token no longer owns anything |
| `Account.AccountManager.Reserve` | `src/trading/allocation/AccountManager.cpp:160-194` | succeeds exactly if the market exists and has the KRW; moves it from available to reserved |
| `Account.AccountManager.Release` | `src/trading/allocation/AccountManager.cpp:196-204` | returns the remainder once |
| `Account.AccountManager.ReleaseInternal` | `src/trading/allocation/AccountManager.cpp:206-224` | remainder back, reserved not below zero |
| `Account.AccountManager.ReleaseWithoutToken` | `src/trading/allocation/AccountManager.cpp:226-242` | the same without a token |
| `Account.AccountManager.FinalizeFillBuy` | `src/trading/allocation/AccountManager.cpp:246-305` | budget and token after a buy fill, with every early exit |
| `Account.AccountManager.FinalizeFillSell` | `src/trading/allocation/AccountManager.cpp:307-337` | budget after a sell fill |
| `Account.AccountManager.FinalizeSellOrder` | `src/trading/allocation/AccountManager.cpp:339-376` | dust by quantity, or by value at the mark price, is written off |
| `Account.AccountManager.FinalizeOrder` | `src/trading/allocation/AccountManager.cpp:378-408` | budget after the end of a buy, token inactive |
| `Account.BuyFillTakes` | `src/trading/allocation/AccountManager.cpp:246-305` | a buy fill takes its cost, or what is left of the token, from token and reservation alike |
| `Account.SellFillMoves` | `src/trading/allocation/AccountManager.cpp:307-337` | a sell fill moves coin out and KRW in, unless it has no coin or negative KRW |
| `Account.FinalizedLeavesNoDust` | `src/trading/allocation/AccountManager.cpp:378-408` | finalizing leaves no reservation below 1 KRW and only moves KRW back |
| `Account.AccountManager.RebuildFromAccount` | `src/trading/allocation/AccountManager.cpp:414-489` | all budgets after the account is read |
| `Account.RebuiltBudget` | `src/trading/allocation/AccountManager.cpp:414-489` | nothing reserved, coin only in positions worth 5000 KRW or more, KRW only in the others, in equal shares |
| `Account.RebuiltHoldings` | `src/trading/allocation/AccountManager.cpp:432-468` | coin and average price are those of the market's last position if it is worth 5000 KRW or more, and zero if it is worth less or there is none |
| `Account.RebuiltDistributesKrw` | `src/trading/allocation/AccountManager.cpp:470-488` | the free KRW is handed out completely unless every market holds coin |
| `OrderStore.Store.Get` | `src/engine/OrderStore.cpp:44-55` | the order under that id, if any |
| `OrderStore.Store.Update` | `src/engine/OrderStore.cpp:58-71` | replaces a present order, adds none |
| `OrderStore.Store.Upsert` | `src/engine/OrderStore.cpp:87-95` | adds or replaces; an empty id is ignored |
| `OrderStore.Store.Erase` | `src/engine/OrderStore.cpp:74-85` | removes, and says whether it was there |
| `Engine.MarketEngine.Submit` | `src/engine/MarketEngine.cpp:49-151` | whole new state and answer of a submit, for every refusal and for the REST error |
| `Engine.MarketEngine.OnMyTrade` | `src/engine/MarketEngine.cpp:154-221` | whole new state after a trade |
| `Engine.MarketEngine.OnOrderSnapshot` | `src/engine/MarketEngine.cpp:224-328` | whole new state after a snapshot |
| `Engine.MarketEngine.MergeSnapshot` | `src/engine/MarketEngine.cpp:240-279` | request fields are kept, cumulative fields overwritten |
| `Engine.MarketEngine.CloseTerminal` | `src/engine/MarketEngine.cpp:290-320` | token or position settled before the report is queued |
| `Engine.MarketEngine.ReconcileFromSnapshot` | `src/engine/MarketEngine.cpp:500-584` | whole new state after a looked-up snapshot, and whether it was applied |
| `Engine.MarketEngine.FinalizeBuy` | `src/engine/MarketEngine.cpp:467-485` | only the active buy gives its token up |
| `Engine.MarketEngine.ResolvePositionEffect` | `src/engine/MarketEngine.cpp:449-463` | NoEffect, Opened, Reduced or Closed |
| `Engine.MarketEngine.MarkTradeOnce` | `src/engine/MarketEngine.cpp:627-646` | whether the key is new, and the window afterwards |
| `Engine.MarketEngine.PollEvents` | `src/engine/MarketEngine.cpp:331-343` | all events in order, and the queue empty |
| `Engine.MarketEngine.ActivePendingIds` | `src/engine/MarketEngine.cpp:488-491` | the two active ids |
| `Strategy.RsiMeanReversionStrategy.Sync` | `src/trading/strategies/RsiMeanReversionStrategy.cpp:86-125` | position taken over only with coin and a price |
| `Strategy.RsiMeanReversionStrategy.HandleCandle` | `src/trading/strategies/RsiMeanReversionStrategy.cpp:127-201` | whole new state and decision for a confirmed candle |
| `Strategy.RsiMeanReversionStrategy.UpdateIndicators` | `src/trading/strategies/RsiMeanReversionStrategy.cpp:203-240` | each indicator advanced once, and the market filter |
| `Strategy.RsiMeanReversionStrategy.Heal` | `src/trading/strategies/RsiMeanReversionStrategy.cpp:157-181` | phase corrected to the tradable holding |
| `Strategy.RsiMeanReversionStrategy.Enter` | `src/trading/strategies/RsiMeanReversionStrategy.cpp:242-289` | entry decision and pending state |
| `Strategy.RsiMeanReversionStrategy.Exit` | `src/trading/strategies/RsiMeanReversionStrategy.cpp:291-360` | exit decision and pending state |
| `Strategy.RsiMeanReversionStrategy.HandleIntrabar` | `src/trading/strategies/RsiMeanReversionStrategy.cpp:362-414` | intrabar exit on stop or target only |
| `Strategy.RsiMeanReversionStrategy.HandleFill` | `src/trading/strategies/RsiMeanReversionStrategy.cpp:417-436` | volume and cost of fills with the pending identifier |
| `Strategy.RsiMeanReversionStrategy.HandleStatus` | `src/trading/strategies/RsiMeanReversionStrategy.cpp:438-571` | phase, entry and levels after a terminal status |
| `Strategy.RsiMeanReversionStrategy.SubmitFailed` | `src/trading/strategies/RsiMeanReversionStrategy.cpp:573-601` | rollback of a refused order |
| `Strategy.RsiMeanReversionStrategy.SetStopsFromEntry` | `src/trading/strategies/RsiMeanReversionStrategy.cpp:604-612` | stop and target from the entry price |
| `Worker.MarketContext.LoopIteration` | `src/app/MarketEngineManager.cpp:302-324` | one pass of the worker loop is a run of at most four steps |
| `Worker.MarketContext.OnMyOrder` | `src/app/MarketEngineManager.cpp:367-444` | routing of one order message |
| `Worker.MarketContext.OnMarketData` | `src/app/MarketEngineManager.cpp:447-579` | the three paths of a candle update |
| `Worker.MarketContext.DoIntrabarCheck` | `src/app/MarketEngineManager.cpp:465-502` | mark price, the retry block, the exit |
| `Worker.MarketContext.HandleEngineEvents` | `src/app/MarketEngineManager.cpp:582-617` | events in order to the strategy |
| `Worker.MarketContext.Recover` | `src/app/MarketEngineManager.cpp:676-768` | lookups of the active orders reconciled |
| `Worker.MarketContext.CheckTimeout` | `src/app/MarketEngineManager.cpp:796-837` | pending timer and one recovery per wait |
| `Worker.MarketContext.BuildAccountSnapshot` | `src/app/MarketEngineManager.cpp:620-633` | the budget as the strategy sees it |
| `RingBuffer.Buffer.Push` | `src/trading/indicators/RingBuffer.h:216-248` | contents after a push; the overwritten value is the oldest |
| `RingBuffer.Buffer.ValueFromBack` | `src/trading/indicators/RingBuffer.h:183-190` | the value that many places before the newest |
| `RingBuffer.Buffer.PhysicalFromNewest` | `src/trading/indicators/RingBuffer.h:264-270` | the index arithmetic lands on the right slot |
| `Rsi.RsiWilder.Update` | `src/trading/indicators/RsiWilder.cpp:27-83` | state and reading after one price |
| `Rsi.UpdateTracksSeries` | `src/trading/indicators/RsiWilder.cpp:27-83` | the streaming fields are the Wilder averages of every price seen |
| `Rsi.StreamRsi` | `src/trading/indicators/RsiWilder.cpp:27-112` | readings over a whole series are the batch definition, and each is the share of the rises (IsRsi) |
| `Rsi.ComputeWilderRsi` | `tools/candle_rsi_backtest.py:155-214` | the backtest loop computes the same definition, and each value is the share of the rises (IsRsi) |
| `Rsi.StreamingMatchesBatch` | `tools/candle_rsi_backtest.py:168-209` | both are ready at the same prices with equal values in 0 to 100 |
| `Rsi.RsiAtIsRsi` | `src/trading/indicators/RsiWilder.cpp:95-112` | the value times rises plus falls is 100 times the rises, and 50 without either, where rises and falls are Wilder's averages of any functions that split a change into its rise and its fall |
| `Rsi.WilderIsAverage` | `src/trading/indicators/RsiWilder.cpp:60-83` | Wilder's recursion is the average written out: the first n changes in equal parts, later ones at 1/n, all fading by 1 - 1/n a price |
| `Rsi.RsiExtremes` | `src/trading/indicators/RsiWilder.cpp:95-112` | a rising series reads 100, a falling one 0 |
| `Rsi.RsiAboveHalf` | `src/trading/indicators/RsiWilder.cpp:95-112` | above 50 exactly when the rises outweigh the falls |
| `Rsi.RsiIsUnique` | `src/trading/indicators/RsiWilder.cpp:95-112` | no other value has that meaning |
| `Rsi.RsiRange` | `src/trading/indicators/RsiWilder.cpp:95-112` | RSI lies in 0 to 100 |
| `Windows.ChangeVolatilityIndicator.Update` | `src/trading/indicators/ChangeVolatilityIndicator.cpp:26-74` | state and reading after one price |
| `Windows.UpdateTracksReturns` | `src/trading/indicators/ChangeVolatilityIndicator.cpp:26-74` | window, sum and sum of squares are those of the last returns |
| `Windows.OnePassVariance` | `src/trading/indicators/ChangeVolatilityIndicator.cpp:87-100` | the one-pass formula is the mean squared deviation, so the negative clamp is dead |
| `Windows.VolatilityIsRollingVariance` | `src/trading/indicators/ChangeVolatilityIndicator.cpp:80-100` | ready after more closes than the window, and for windows of 3 or more equal to the population variance |
| `Windows.WindowOfTwo` | `src/trading/indicators/ChangeVolatilityIndicator.cpp:90` | with a window of 2 it reads zero, which is wrong exactly when the two returns differ |
| `Windows.WindowOfTwoMisreads` | `src/trading/indicators/ChangeVolatilityIndicator.cpp:90` | such returns: after the closes 1, 2, 2 the variance is a quarter and reads as zero |
| `Windows.ClosePriceWindow.Update` | `src/trading/indicators/ClosePriceWindow.cpp:19-38` | state and reading after one price |
| `Windows.CloseTracksSeries` | `src/trading/indicators/ClosePriceWindow.cpp:7-38` | the reading is the series shifted by N, as soon as it exists |
| `Backtest.RunBacktest` | `tools/candle_rsi_backtest.py:339-438` | trades, equity curve, cash and open cost of the loop |
| `TradeLog.TradesAreExplained` | `tools/candle_rsi_backtest.py:343-435` | for every series each trade was entered at the first row since the last exit that invited with the cash at hand, left at the first row after that which said so and for that reason, at the prices, fees and profit written out; nothing is passed over in between or after the last |
| `TradeLog.EquityIsExplained` | `tools/candle_rsi_backtest.py:437-438` | equity is the initial cash and all profits, with an open position at its value instead of its cost |
| `Backtest.CheckIntrabarExit` | `tools/candle_rsi_backtest.py:240-277` | no exit exactly if the range touches neither level; take profit exactly if the target counts first |
| `Backtest.CashIdentity` | `tools/candle_rsi_backtest.py:343-438` | cash never negative; cash plus open cost is initial cash plus all profits |
| `Backtest.MarginIsNeeded` | `tools/candle_rsi_backtest.py:360-366` | an entry is paid from cash if and only if utilization times one plus the fee is within the reserve margin |
| `Backtest.TradesNeverOverlap` | `tools/candle_rsi_backtest.py:353-435` | trades follow each other, none opens and closes on one candle |
| `Backtest.CloseExitsAreRsiExits` | `tools/candle_rsi_backtest.py:408-435` | with the close inside the range every non-intrabar exit is an RSI exit |
| `Backtest.SignalsAgree` | `tools/candle_rsi_backtest.py:217-235` | on positive closes the live RSI is the backtest one, and the live market filter passes if and only if the backtest one does and the live one is not blind: window 1 at the first return, or window 2 under a minimum |
| `Backtest.WindowOfTwoDisagrees` | `tools/candle_rsi_backtest.py:217-235` | such settings: with a window of 2 and a minimum of 0.1 the closes 1, 2, 2 pass the backtest and not the bot |
| `Pairing.TakeAsks` | `streamlit/app.py:211-221` | the inner loop takes one slice and stops where the next buy begins |
| `Pairing.PairTrades` | `streamlit/app.py:198-270` | the rows are those of the slices, one per buy with a sell; unless a next buy at time zero shows, they are the rows of the windows, computed by a plain filter |
| `Pairing.PairsExactlyIff` | `streamlit/app.py:206-221` | each buy gets exactly the sells strictly between its time and the next buy, if and only if no sell lies at or after a next buy at time zero |
| `Pairing.ZeroTimeMispairs` | `streamlit/app.py:218` | such an input: with buys at 0 and 0 and a sell at 5 the first buy takes the sell of the second |
| `Pairing.CyclesAreWindows` | `streamlit/app.py:206-221` | the two-pointer pass gives the rows of the windows |
| `Pairing.SlicesFollow` | `streamlit/app.py:203-221` | no sell is used twice |
| `Pairing.RevenueIsConserved` | `streamlit/app.py:226-227` | all revenue is that of the sells inside windows, each once |
| `Pairing.RowsBookWindows` | `streamlit/app.py:223-262` | row by row: which buy it is about, in order, with times, cost with fee, net revenue, profit and its share written out for the sells of the window; buys without a row have no sell |
| `Gaps.FindGaps` | `tools/fetch_candles.py:166-217` | the grouped missing timestamps of the range |
| `Gaps.CollectMissing` | `tools/fetch_candles.py:184-199` | all expected timestamps that are not stored |
| `Gaps.GroupMissing` | `tools/fetch_candles.py:204-217` | runs of neighbouring timestamps |
| `Gaps.GapsAreExact` | `tools/fetch_candles.py:166-217` | gaps are ordered, disjoint and maximal; they cover exactly the missing timestamps if and only if it is not so that the start has seconds in a boundary minute and the cut start is within the end and stored |
| `Gaps.GridIsBoundaries` | `tools/fetch_candles.py:174-199` | for every unit that divides the day the expected timestamps are exactly the boundaries from the start, cut to a whole minute, on |
| `Gaps.CutStartMisreports` | `tools/fetch_candles.py:184-189` | such an input |
| `Gaps.FillingClosesGaps` | `tools/fetch_candles.py:166-217` | storing the gaps leaves none, if and only if the cut start does not lie below the range |
| `Gaps.DetectCandleGaps` | `tools/candle_rsi_backtest.py:108-150` | the number of gaps, the missing candles, and the longest gap, which is attained |
| `Gaps.BothCountsAgree` | `tools/candle_rsi_backtest.py:127-134` | over the span of a stored series both tools count the same gaps and the same missing candles |
| `Gaps.CalcEndTs` | `tools/fetch_candles.py:59-77` | the candle of the result is over, the next one has begun on a boundary and is not over; for units dividing the day the result is a boundary |
| `Wire.EncodeComponent` | `src/util/UrlCodec.h:21-37` | percent-encoding of every byte string |
| `Wire.DecodePercent` | `src/util/UrlCodec.h:42-63` | decoding of complete escapes, everything else as it is |
| `Wire.PercentRoundTrip` | `src/util/UrlCodec.h:21-63` | decoding undoes encoding on every byte string |
| `Wire.AppendQueryParam` | `src/api/upbit/UpbitExchangeRestClient.cpp:80-86` | one more parameter |
| `Wire.MakeQueryStrings` | `src/api/upbit/UpbitExchangeRestClient.cpp:108-129` | the text sent and the text hashed |
| `Wire.HashIsRawIff` | `src/api/upbit/UpbitExchangeRestClient.cpp:108-129` | the hashed text is the raw key=value&... list if and only if no key contains a complete escape |
| `Wire.EscapedKeyIsDecoded` | `src/api/upbit/UpbitExchangeRestClient.cpp:80-129` | such a list: the key %41 with the value 1 is sent as %41=1 and hashed as A=1 |
| `QueryText.QueryReadsBack` | `src/api/upbit/UpbitExchangeRestClient.cpp:80-129` | an ordinary parser reads the text sent back item by item, whatever the values contain, for keys without & and = |
| `QueryText.EncodedByteIs` | `src/util/UrlCodec.h:21-37` | unreserved characters of RFC 3986 as they are, every other byte as % and two upper-case digits |
| `QueryText.FromHexIs` | `src/util/UrlCodec.h:42-63` | digits of either case are read for what they stand for, and nothing else is |
| `QueryText.UrlLetterIs` | `src/api/auth/UpbitJwtSigner.cpp:22-67` | the letters are those of base64url |
| `Wire.Base64UrlEncode` | `src/api/auth/UpbitJwtSigner.cpp:22-67` | grouping, replacement in place and stripped padding |
| `Wire.Base64UrlRoundTrip` | `src/api/auth/UpbitJwtSigner.cpp:22-67` | a reference decoder undoes it for every length, and only URL-safe letters occur |

## Left out

- SignalsAgree: a volatility window of 0, which the rolling window of the backtest's library decides, is not treated.
- GridIsBoundaries: speaks of units that divide the day, as all of the exchange's up to a day do; `GapsAreExact` holds for every unit.
- DetectCandleGaps: without the three sample rows it formats for display.
- PairTrades: one market, without the exit reason (a join and a nearest-time search) and the final sort by closing time.
- FinalizeSellOrder: without `realized_pnl`, because `initial_capital` is not kept up to date by the rebuild.
- MergeSnapshot: without the fields that are copied and never read: `locked`, `reserved_fee`, `remaining_fee`, `trades_count`, `created_at`.
- VolatilityIsRollingVariance: speaks of the variance; the square root is not modelled, and the strategy compares squares.
- UnsoldCoinIsHeld: says a pending sell is covered by the balance; that the strategy asks for all of it is StrategySellsAll.
- InterleavingIsIndependent: works on the lock-atomic operations as values, with the token id left out of what a market sees; threads, locks and memory order are not modelled.
- WorkersInterleave: the sections of an operation are written beside the engine's methods and proved to have the same effect, not read off the methods; a worker's reads of its own budget between operations, which only it changes, are not listed.
- Floating-point rounding, including the 12-digit text of the fallback trade key, which is modelled by its exact fields.
- Return on investment and trade counters.
- Exit reasons, signal records, database inserts and logging.
- An engine for a market that has no budget: the source would report no coin; the model's engine requires its market to be registered.
- Exceptions inside the worker loop, the owner-thread check, queue overflow, retry sleeps and the reconnect request, which only sets the recovery flag.
- Cancelling open orders at startup and the position lookup there: the position it reports is an arbitrary input.
- The constructor of AccountManager, `OrderStore::add`, `getOpenOrdersByMarket` and `size`: easy members beside the ones modelled.
- WebSocket and REST transport, TLS, JSON parsing, hashing and the rest of the JWT, `fetch_range` paging (its end depends on what the exchange means by `to`), Streamlit charts and deployment.
