# Verified model of the simulated exchange and its event loop

This project models, in Dafny, the order path of the HFT engine: the lock-free event ring, the
simulated exchange, the order manager with its position limit, the profit-and-loss engine, the
order book, the two strategies, the latency metric, and the processor loop of `main.cpp` that
drives them from one event queue.

Each component is a class with the fields of the source. Its methods are proved equal to a
specification function on a value of the same shape (`View()`), and the theorems are about those
functions and about whole runs of them.

| file | what it holds |
|---|---|
| `Events.dfy` | orders, reports, events |
| `RingBuffer.dfy` | the ring as a machine of atomic steps, and the class that runs them uninterrupted |
| `TwoProducers.dfy` | why the ring is for one producer |
| `EventQueue.dfy` | the queue as an atomic bounded FIFO shared with the feed thread |
| `LatencyMetric.dfy` | concurrent maximum by compare-exchange |
| `OrderBook.dfy` | book sides against the trade history |
| `MatchingEngine.dfy` | the exchange, its sweep and the fate of limit orders |
| `OrderManager.dfy`, `RiskEngine.dfy` | acceptance of orders |
| `MapSums.dfy`, `PnLEngine.dfy`, `PnLTheory.dfy` | average-cost accounting and drawdown |
| `MarketMaker.dfy`, `Momentum.dfy` | the strategies |
| `EventLoop.dfy` | the composed loop: values, and the class with its batch of four |
| `LoopSteps.dfy` | what one step of the loop does to the events under way; turns are runs of steps |
| `LoopMeasures.dfy` | sums over everything under way, and how one step changes them |
| `LoopDrains.dfy`, `LoopLifecycle.dfy`, `LoopRisk.dfy`, `LoopLedger.dfy`, `LoopSafety.dfy`, `LoopFate.dfy` | theorems over every run of the loop |
| `LoopHistory.dfy`, `LoopFlow.dfy` | the state of the components, and what travels between them, told from the events handled |
| `LoopOrders.dfy` | the order table against the accepted orders; how the loop can lock itself outside the limit |
| `LoopWiring.dfy` | which books a run may see: none, as `main.cpp` is wired, or those of a book fed every tick |
| `LoopQuiet.dfy` | how runs from the start are put together from quiet stretches and ticks |
| `LoopStaircase.dfy`, `LoopOverrun.dfy` | runs that pass the position limit: by momentum orders without a book, by quotes with one |
| `LoopExact.dfy` | when the position limit is kept, and how far it can be passed |
| `BatchLoop.dfy` | the loop refines one that takes a single event at a time |

The state of the loop (`EventLoops.Loop`) holds the queue, the part of the batch of four still to be
handled, all components, and as history the sequence of events handled. A step fills the empty batch
or handles the next event in it, and `Run` is any number of steps. A turn of `while (running)` is one
step to fill and one per event found (`LoopSteps.TurnsAreSteps`), and the method `EventLoop.Turn` is
proved equal to that. So a theorem over every `Run` from `Start` holds after every turn of the loop of
`main.cpp` and at every moment inside one. "Under way" means in the batch or in the queue.

How the parts of the real system that are not code of these components enter:

- What the market maker reads from the book and its "have 50 ms passed" test are inputs of every
  step (`Env`), so theorems about all runs hold for any book. `main.cpp` never calls `apply_trade`, so
  there the book stays empty; `LoopLifecycle.AsWiredActiveIsLive` is about exactly that case.
  Theorems that say a run exists, and the exact conditions, name the wiring: `AsWired` is `main.cpp` as
  it stands, with no book ever; `BookFed` is the same loop with each tick fed to the book before the
  strategies see it, so that the market maker reads the best levels of the trades handled so far.
- The feed thread is a schedule in the queue: any ticks may arrive before any single queue
  operation of the processor thread.
- The ring is written for one producer and is verified for one producer and one consumer.
  `main.cpp` pushes from two threads, so the loop is modelled over a FIFO with atomic operations.
  A push into a full queue loses the event, as in the source, where the result of `push` is not
  looked at. Theorems that need "nothing was dropped" say so (`failed == 0`); the others hold with
  drops as well.
- Prices and quantities are exact reals.

Where the code and its documentation disagree the model follows the code:

- cancelling reports a cancellation but leaves the order resting
  (`MatchingEngines.CancelledOrderStillFills`), so cancellations play no part in an order's fate
  (`LoopFate.FateInRun`);
- the position limit ignores orders under way. As `main.cpp` is wired it is kept in all runs exactly
  when it is below the 0.5 of a single momentum order or the queue has no place at all
  (`LoopExact.LimitIsKeptAsWiredIff`); with the configured 100 and any other limit that lets an order
  through there is no bound on the position (`LoopStaircase.PositionIsUnbounded`), and once it is more
  than 0.5 outside with nothing left to fill no order is ever accepted again, so that it stays there for
  ever (`LoopOrders.StuckOutside`, `LoopOrders.LoopCanLock`). With a fed book it is
  kept in all runs exactly when it is below the 0.1 of a single quote (`LoopExact.LimitIsKeptWithBookIff`);
- the accounting identity holds exactly as long as no fill reverses a position below 1e-9
  (`PnLTheory.AccountingExact`, `PnLTheory.DustBreaksTheBooks`);
- and an open position's average price is among the prices it was built at exactly as long as no fill
  turns such a position round (`PnLTheory.AverageEnvelopeExact`);
- `size()` called by a third thread is right about one of its two loads exactly if the other index had
  not moved (`RingProtocol.SizeIsRightIff`, `RingBuffers.SizeCanBeWrong`);
- every execution report is used as a mark, a cancellation at price 0; drawdown is never negative,
  although the repository's sample output prints a negative one; `total_pushed` counts failed pushes too.

## Model

| member | source | states |
|---|---|---|
| RingProtocol.StepRefinesFifo | core/ring_buffer.hpp:16-35 | every atomic step of push or pop, in any interleaving and with stale loads of the other side's index, is a step of a FIFO of capacity Size-1 or leaves it alone |
| RingProtocol.FullAnswer | core/ring_buffer.hpp:17-21 | push answers "full" exactly when Size-1 items separate it from the tail it loaded; with an up-to-date load that is exactly when the queue is full; when it goes on there is room |
| RingProtocol.EmptyAnswer | core/ring_buffer.hpp:28-31 | the dual for pop |
| RingProtocol.NoSlotRace | core/ring_buffer.hpp:22-32 | the slot about to be written is never the slot about to be read, and both are in range |
| RingProtocol.RunIsFifo | core/ring_buffer.hpp:16-35 | in every run the items popped are a prefix of the items successfully pushed, and at most Size-1 are waiting |
| RingProtocol.SizeIsExact | core/ring_buffer.hpp:37-42 | the index arithmetic of size() gives the number of waiting items when nothing moves between its two loads |
| RingProtocol.SizeIsRightIff | core/ring_buffer.hpp:37-42 | with its two loads from any two states of the ring: right about the first exactly if the tail was already the one loaded, right about the second exactly if the head still was |
| RingProtocol.SizeStaysInRange | core/ring_buffer.hpp:37-42 | right or not, the answer is between 0 and Size-1 and leads from the tail to the head |
| RingBuffers.SizeCanBeWrong | core/ring_buffer.hpp:37-42 | a push and a pop between the two loads make size() answer 1 although the queue was empty at both |
| RingBuffers.RingBuffer.constructor | core/ring_buffer.hpp:12-14 | an empty ring in the initial state of the protocol |
| RingBuffers.RingBuffer.Push | core/ring_buffer.hpp:16-25 | appends the item, or changes nothing and answers false exactly when Size-1 items wait; equals the protocol's own steps |
| RingBuffers.RingBuffer.Pop | core/ring_buffer.hpp:27-35 | takes the oldest item, or nothing when empty; equals the protocol's own steps |
| RingBuffers.RingBuffer.Size | core/ring_buffer.hpp:37-42 | the number of waiting items |
| EventQueues.EventQueue.Push | core/event_queue.hpp:12-15 | counts the attempt; appends the event exactly if there is room after the feed's arrivals, and says whether it did |
| EventQueues.EventQueue.Pop | core/event_queue.hpp:17-19 | the oldest event, if any |
| EventQueues.TicksArriveUntilFull | core/event_queue.hpp:12-15 | of the feed's ticks the first ones go in, in order, as many as there is room for; all are counted, the others lost |
| TwoProducers.TwoProducersLoseAnItem | core/ring_buffer.hpp:16-25 | in every state with room for two items an interleaving of two pushes in which both answer true, one item is lost, and size() and the queue's contents no longer agree |
| LatencyMetric.StepKeepsInv | core/latency_tracker.hpp:41-47 | the modification order of max_ns is strictly increasing and made of samples; total and count are the sums of the calls begun and counted, modulo 2^64 |
| LatencyMetric.MaximumOnlyGrows | core/latency_tracker.hpp:45-46 | max_ns never goes down in any run of any number of concurrent calls |
| LatencyMetric.MaximumIsSound | core/latency_tracker.hpp:41-47 | max_ns is 0 or a begun sample and at least every finished one |
| LatencyMetric.QuiescentIsExact | core/latency_tracker.hpp:41-54 | with no call in flight maximum, total and count are exact |
| LatencyMetric.LossRaisesCurrentMax | core/latency_tracker.hpp:46 | a compare-exchange lost for a real change leaves the call with a strictly larger current_max |
| LatencyMetric.LossesAreBounded | core/latency_tracker.hpp:46 | a call loses at most as often as the maximum has been raised |
| LatencyMetric.MetricCell.Record | core/latency_tracker.hpp:41-47 | after an uninterrupted call with any number of spurious failures the history has one more finished sample and all fields agree with it |
| LatencyMetric.MetricCell.GetStats | core/latency_tracker.hpp:49-54 | with no call in flight: average, maximum and count of everything recorded; zeros when nothing was |
| LatencyMetric.StatsWhileRecording | core/latency_tracker.hpp:49-54 | with calls in flight, its three loads of any moments in any order: each load is right for its moment, a total no older than the count covers all calls counted, a maximum no older than the count covers all finished ones |
| OrderBooks.SideIsUnique | orderbook/order_book.cpp:16-28 | the trade history determines a side of the book, although std::sort is unstable |
| OrderBooks.UpdateSide | orderbook/order_book.cpp:15-28 | find or replace, append if there is room, sort: the side for the history with one more trade, i.e. the first 100 distinct prices in strict order, each with the last quantity traded there |
| OrderBooks.Sort | orderbook/order_book.cpp:26-28 | the same levels in strict price order |
| OrderBooks.OrderBook.constructor | orderbook/order_book.hpp:33-46 | the empty book stands for the empty history |
| OrderBooks.OrderBook.ApplyTrade | orderbook/order_book.cpp:8-58 | for a trade of any quantity both sides, both volumes, spread and imbalance agree with the extended history; imbalance stays strictly inside (-1, 1) while quantities are positive; best bid does not fall, best ask does not rise |
| OrderBooks.BestOnlyImproves | orderbook/order_book.cpp:16-45 | over any stretch of trading the best price of a side never gets worse |
| OrderBooks.SpreadNeverWidens | orderbook/order_book.cpp:48-57 | between any two moments of a run the spread does not widen |
| OrderBooks.LevelsAreCounted | orderbook/order_book.cpp:15-28 | a side has as many levels as there are distinct prices among its trades, up to 100; below 100 every price traded at has one |
| OrderBooks.TradeChangesOneLevel | orderbook/order_book.cpp:13-28 | one more trade gives the level at its price its quantity, makes a new level while there are fewer than 100, and leaves every other level as it was |
| OrderBooks.OrderBook.GetTopBids | orderbook/order_book.cpp:60-68 | the first n bids in order, all of them if there are fewer than n, none if n is negative |
| OrderBooks.OrderBook.GetTopAsks | orderbook/order_book.cpp:70-78 | the same for asks |
| MatchingEngines.MatchingEngine.UpdateMarketPrice | exchange/matching_engine.cpp:12-37 | the erase-while-iterating loop keeps the orders that do not cross and pushes one fill per crossing order, in arrival order, with consecutive trade ids |
| MatchingEngines.MatchingEngine.EmitExecution | exchange/matching_engine.cpp:104-126 | pushes one report with the next trade id that copies id, strategy and side from the order, with nothing left exactly for fills |
| MatchingEngines.MatchingEngine.ProcessOrder | exchange/matching_engine.cpp:39-52 | dispatch on the order type, tied to the specification used in all exchange theorems |
| MatchingEngines.MatchingEngine.MatchMarketOrder | exchange/matching_engine.cpp:66-77 | rejected without a positive price, otherwise filled at it |
| MatchingEngines.MatchingEngine.MatchLimitOrder | exchange/matching_engine.cpp:79-102 | filled at the touch if marketable at a positive price, otherwise resting with a New report |
| MatchingEngines.MatchingEngine.CancelOrder | exchange/matching_engine.cpp:54-64 | only a Cancelled report; the resting orders are unchanged |
| MatchingEngines.SelectIsStable | exchange/matching_engine.cpp:20-36 | what the sweep keeps and what it fills are exactly the orders that do not, or do, cross, each once and in their old order |
| MatchingEngines.SweepPartitions | exchange/matching_engine.cpp:20-36 | together they are all the orders that rested |
| MatchingEngines.LimitOrderFate | exchange/matching_engine.cpp:12-102 | a limit order fills at most once, completely, at once if marketable and otherwise at the first tick crossing its limit, at that tick's bid or ask, whatever else is submitted or cancelled |
| MatchingEngines.FateRespectsLimit | exchange/matching_engine.cpp:20-29 | and never at a price worse than its limit |
| MatchingEngines.MarketOrderFate | exchange/matching_engine.cpp:66-77 | a market order fills whole at a positive touch, is refused otherwise, and never rests |
| MatchingEngines.TradeIdsAreConsecutive | exchange/matching_engine.cpp:104-126 | over every run each report takes the next trade id |
| MatchingEngines.CancelledOrderStillFills | exchange/matching_engine.cpp:54-64 | the reports of an order cancelled while it rests: New, Cancelled, and then its whole fill at the next tick below its limit |
| MatchingEngines.RunsStayUncrossed | exchange/matching_engine.cpp:12-37 | in every reachable state no resting order is marketable |
| MatchingEngines.OverlapBelowSpread | exchange/matching_engine.cpp:15-17 | resting buys and sells overlap by less than the spread of 0.5 once the best bid is positive |
| OrderManagers.OrderManager.HandleOrderRequest | oms/order_manager.cpp:10-26 | a well-formed request within the limit is stored unchanged under its id and forwarded; any other leaves no trace |
| OrderManagers.OrderManager.ValidateOrder | oms/order_manager.cpp:43-50 | true exactly for a positive quantity, a positive limit price and a position within the limit |
| OrderManagers.OrderManager.HandleExecutionReport | oms/order_manager.cpp:28-41 | a terminal report removes the order, others change nothing |
| RiskEngines.RiskEngine.CheckOrder | risk/risk_engine.cpp:6-13 | true exactly when the position after this order alone is between minus the limit and the limit, for both sides and at any position |
| RiskEngines.RiskEngine.UpdatePosition | risk/risk_engine.cpp:15-18 | moves the position and leaves the limit |
| PnLEngines.PnLEngine.Fill | pnl/pnl_engine.cpp:24-47 | average-cost booking of one fill into one strategy's statistics |
| PnLEngines.PnLEngine.UpdatePnl | pnl/pnl_engine.cpp:7-22 | the loop re-marks every strategy and updates peak and drawdown with the sum of all equities |
| PnLEngines.PnLEngine.GetTotalPnl | pnl/pnl_engine.cpp:49-55 | the sum of realized and unrealized profit over all strategies |
| PnLEngines.PnLEngine.GetTotalPosition | pnl/pnl_engine.cpp:57-63 | the sum of all positions |
| PnLTheory.LedgerStep | pnl/pnl_engine.cpp:29-46 | a fill changes realized profit minus open cost by exactly its cash, on every branch, unless it reverses a position below the 1e-9 threshold |
| PnLTheory.LedgerExact | pnl/pnl_engine.cpp:29-46 | with positive prices that condition is necessary as well |
| PnLTheory.FillRules | pnl/pnl_engine.cpp:29-46 | what a fill realizes and where it leaves the average, in the three cases: adding spreads the cost, reducing realizes the part closed at the old average, turning round closes everything and starts again at the price |
| PnLTheory.TradesAreClosings | pnl/pnl_engine.cpp:36 | `trades` is the number of fills against an open position, told from the quantities alone |
| PnLTheory.PositionIsNet | pnl/pnl_engine.cpp:46 | over every fill history the position is the signed sum of the fills |
| PnLTheory.Accounting | pnl/pnl_engine.cpp:24-47 | over every history in which no fill reverses dust, realized profit minus open cost is the cash received |
| PnLTheory.AccountingExact | pnl/pnl_engine.cpp:29-46 | with positive prices and no division by zero the books balance after every fill if and only if no fill reverses dust |
| PnLTheory.DustBreaksTheBooks | pnl/pnl_engine.cpp:29-32 | a history of two fills at one price after which the books show a profit that no money was received for |
| PnLTheory.GridIsClean | pnl/pnl_engine.cpp:29 | quantities on a lot grid coarser than 1e-9 never get there |
| PnLTheory.AverageEnvelope | pnl/pnl_engine.cpp:29-44 | an open position's average price lies between the lowest and highest price of the fills that built it since it was last flat or changed sign, as long as no fill reverses dust |
| PnLTheory.AverageEnvelopeExact | pnl/pnl_engine.cpp:29-34 | with positive prices, if every fill that reverses dust turns the position round, the average has stayed inside after every fill if and only if no fill reversed dust |
| PnLTheory.StatsAreOwnTrades | pnl/pnl_engine.cpp:24-25 | a strategy's statistics depend on its own fills only |
| PnLTheory.Totals | pnl/pnl_engine.cpp:57-63 | total position is the net quantity of all fills, always; total ledger is their cash if none reverses dust |
| PnLTheory.EquityIsCashPlusPosition | pnl/pnl_engine.cpp:7-18 | equity after a mark is cash plus net position at the mark, if no fill reversed dust and none is left |
| PnLTheory.StrategyEquity | pnl/pnl_engine.cpp:11-18 | the same for each strategy by itself |
| PnLTheory.EquityIgnoresOrder | pnl/pnl_engine.cpp:7-47 | and does not depend on the order of the fills or on earlier marks |
| PnLTheory.EquityIgnoresOrderInLots | pnl/pnl_engine.cpp:7-47 | in lots, the same fills in any order give the same equity |
| PnLTheory.DrawdownIsMaxDrop | pnl/pnl_engine.cpp:20-21 | the online drawdown is the largest difference between an equity and a later one, the start at 0 included |
| MarketMakers.MarketMakerStrategy.OnMarketData | strategy/market_maker_strategy.hpp:18-54 | state and pushed events equal the specification used in the strategy and loop theorems, also over a book without quantities or with negative ones |
| MarketMakers.MarketMakerStrategy.CancelAll | strategy/market_maker_strategy.hpp:86-94 | one cancel per active id, in order, and no id stays active |
| MarketMakers.QuotesDoNotCross | strategy/market_maker_strategy.hpp:24-43 | for any book, even crossed, and any position: integral quotes at least 2 apart, never better than the best bid and ask of the book |
| MarketMakers.MakerFollowsBook | strategy/market_maker_strategy.hpp:19-50 | at any turn of any run: nothing is sent without two best levels and 50 ms, nor while the quotes are those of the last such turn; otherwise a cancel for each active order, a buy of 0.1 if the position is below 10 and a sell of 0.1 if it is above -10, at the highest and lowest whole prices the targets and the book allow |
| MarketMakers.QuotesAreUnique | strategy/market_maker_strategy.hpp:33-43 | book and position determine both quotes |
| MarketMakers.QuotesLean | strategy/market_maker_strategy.hpp:33-35 | on the same best prices a larger position never raises a quote, and neither does less on the bid or more on the ask |
| MarketMakers.IdsAreAccountedFor | strategy/market_maker_strategy.hpp:45-48 | over every run the cancels sent, in order, followed by the at most two active ids are exactly the ids issued |
| Momentums.MomentumStrategy.OnMarketData | strategy/momentum_strategy.hpp:45-68 | state and pushed order equal the specification used in the strategy and loop theorems |
| Momentums.AveragesStayInRange | strategy/momentum_strategy.hpp:46-53 | both averages stay between any bounds of the prices seen |
| Momentums.OrdersAlternate | strategy/momentum_strategy.hpp:55-67 | orders alternate Buy, Sell with consecutive ids; none before the 50th tick |
| Momentums.AveragesAreSums | strategy/momentum_strategy.hpp:47-51 | both averages are weighted sums of the whole price history, with weights fading by 9/11 and 49/51 |
| Momentums.SignalsExactly | strategy/momentum_strategy.hpp:53-67 | at any price of any history: exactly when a buy or a sell of 0.5 is sent, at which price and with which id, in terms of those sums, the thresholds of 0.01%, the 50th tick and the orders sent before |
| Momentums.NarrowBandSendsNothing | strategy/momentum_strategy.hpp:57-67 | while all prices lie within 0.01% of each other no order is ever sent |
| Momentums.RisingPricesBuyOnce | strategy/momentum_strategy.hpp:50-67 | on a non-decreasing positive stream the short average is never below the long one and at most one order, a Buy, is sent |
| Momentums.FallingPricesSendNothing | strategy/momentum_strategy.hpp:50-67 | on a non-increasing positive stream nothing is sent |
| EventLoops.EventLoop.constructor | main.cpp:86-103 | all components new, empty and wired to one queue and one risk engine |
| EventLoops.EventLoop.Dispatch | main.cpp:135-181 | handling one event changes all components and the queue as the composed specification says |
| EventLoops.EventLoop.OnMarketData | main.cpp:136-141 | strategies, then exchange, as the composed specification says; that the position given to them is that of the fills handled is LoopHistory.MakerPosition |
| EventLoops.EventLoop.OnExecutionReport | main.cpp:155-179 | order manager, then fill and position, then mark, then history |
| EventLoops.EventLoop.Turn | main.cpp:118-183 | one turn is one step to fill the batch and one step for each event it popped, in order; slots left from earlier turns are never handled |
| LoopSteps.TurnsAreSteps | main.cpp:117-183 | any number of turns is a run of steps, so what holds after all runs of steps holds after every turn and inside one |
| LoopSteps.StepMembers | main.cpp:119-182 | after a step, whatever is under way was before, was sent by the step, or is a tick, failed pushes or not |
| LoopHistory.PositionOfHistory | main.cpp:137-163 | at every moment of every run the position the limit is checked against and the total position are the signed sum of the fills among the events handled |
| LoopHistory.MakerPosition | main.cpp:137 | the market maker's position is that of the fills handled before the last tick, 0 before the first |
| LoopHistory.MakerSeesRiskPosition | main.cpp:137 | when a tick is handled the market maker is given the position the limit is checked against at that moment |
| LoopHistory.MomentumOfHistory | main.cpp:138 | the momentum strategy has seen the prices of the ticks handled, each once and in order |
| LoopHistory.MakerOfHistory | main.cpp:136-138 | the market maker's state is that of its own run over the books, clocks and positions at the ticks handled |
| LoopHistory.RequestDecided | oms/order_manager.cpp:10-50 | in any state, for both sides: a request goes on to the exchange exactly if quantity and limit price are positive and it takes the position to a value between minus the limit and the limit |
| LoopHistory.ReducingOrder | risk/risk_engine.cpp:6-13 | an order that makes the position smaller is accepted exactly if the rest is inside the limit; never refused while the position was |
| LoopHistory.AcceptedInRun | oms/order_manager.cpp:10-26 | in every run, drops or not, the accepted orders are exactly the requests handled that took the position of the fills before them to a value inside the limit |
| LoopFlow.TickSendsInOrder | main.cpp:136-139 | a tick makes the market maker's events go out first, then the momentum strategy's, then the fills |
| LoopFlow.StrategiesAreHeard | main.cpp:118-141 | without drops the events of each strategy handled and under way are, in order, what it sends when shown the ticks handled one by one |
| LoopFlow.AcceptedAreForwarded | oms/order_manager.cpp:17-22 | without drops the orders handled by the exchange and on their way to it are, in order, the accepted ones |
| LoopFlow.PushesAreCounted | core/event_queue.hpp:12-15 | in every run the pushes counted are the events handled, those under way and those lost; the queue never overflows |
| LoopOrders.TableHoldsTheOrders | oms/order_manager.cpp:13-15 | every entry of the order table is the accepted order with that id; while the id ranges have not met it is the very order queued, resting and described by the reports under way, drops or not |
| LoopOrders.AcceptedIdsDiffer | oms/order_manager.cpp:15 | and no two accepted orders share an id |
| LoopOrders.StuckOutside | risk/risk_engine.cpp:8 | with the position more than 0.5 outside the limit and nothing left to fill, no order is ever accepted again and the position never changes |
| LoopOrders.LoopCanLock | main.cpp:93 | with any limit of at least 0.5 the loop, with or without a fed book, has a run without failed pushes into such a state, above the limit |
| LoopMeasures.StepEffect | main.cpp:119-182 | how one step changes any sum over batch, queue and resting orders; exact without drops, an upper bound with them |
| LoopDrains.HandlingCostsWeight | main.cpp:135-179 | with weights 17, 4, 3, 2, 1 and 1 per resting order every handled event lowers the weight |
| LoopDrains.WorkIsPaidFor | main.cpp:118-183 | at every moment of every run, drops or not, events handled plus weight left is at most 17 per accepted tick |
| LoopDrains.SeventeenEventsPerTick | main.cpp:118-183 | n accepted ticks cause at most 17 n handled events |
| LoopDrains.QueueRunsEmpty | main.cpp:118-129 | once the feed is silent batch and queue are empty after at most as many turns as there is weight |
| LoopDrains.TurnHandlesFour | main.cpp:117-132 | without arrivals a turn handles the events waiting, in order, up to four |
| LoopLifecycle.ActiveOrdersAreLive | oms/order_manager.cpp:10-41 | without drops and while ids do not collide: an order is active exactly when it is queued for the exchange, resting, or its end is queued, and no cancellation of it was reported; the three places exclude each other |
| LoopLifecycle.OrdersEndOnce | oms/order_manager.cpp:31-37 | no order ends twice, and none has ended while it is still in one of the three places |
| LoopLifecycle.DrainedMeansResting | main.cpp:135-179 | with nothing under way the active orders are the resting ones not reported cancelled |
| LoopLifecycle.AsWiredActiveIsLive | main.cpp:61-91 | with the book left empty nothing is cancelled, so active equals the three places, and equals resting once drained |
| LoopLifecycle.EmptyBookSilencesMaker | strategy/market_maker_strategy.hpp:19-22 | an empty book keeps the market maker silent for the whole run |
| LoopLifecycle.NothingMarketableRests | exchange/matching_engine.cpp:12-102 | in every state of every run of the loop no resting order could trade at the current prices |
| LoopRisk.ExposureBound | risk/risk_engine.cpp:6-18 | if on one side at most k accepted orders of at most q each are outstanding at every moment, those waiting in the batch included, the exposure on that side never exceeds the limit by more than (k-1) q; with k = 1 the plain limit holds; drops allowed |
| LoopRisk.PositionBound | risk/risk_engine.cpp:6-18 | the same for the absolute position |
| LoopRisk.PositionBoundForStrategies | main.cpp:93 | for the strategies of the source q is 0.5, so a bound on the number alone suffices |
| LoopExact.BoundIsReached | risk/risk_engine.cpp:6-18 | for every k, with a book fed every tick, a run from the start made of the strategies' own orders, with at most k buys of 0.1 outstanding at every moment, that ends at exactly the limit plus (k-1) 0.1 |
| LoopExact.BoundIsReachedAtAnySize | oms/order_manager.cpp:43-50 | k buys of any size q checked while the position is q below the limit are all accepted and filled and end at exactly the limit plus (k-1) q |
| LoopExact.LimitIsKeptAsWiredIff | main.cpp:85-103 | with the book left empty, any limit and any queue: the limit is kept in all runs if and only if it is not negative and either below 0.5, one order of the momentum strategy, or the queue has no place |
| LoopExact.LimitIsKeptWithBookIff | risk/risk_engine.cpp:6-13 | with a book fed every tick, any limit and a queue with room for at least five events: the limit is kept in all runs if and only if it is not negative and below 0.1, one quote of the market maker |
| LoopExact.NoRoomNoTrade | core/event_queue.hpp:12-15 | in a queue without a place no position is ever taken, whatever the book shows |
| LoopStaircase.PositionIsUnbounded | risk/risk_engine.cpp:8 | with the book left empty and with one that is fed, any limit of at least 0.5 and any queue with a place: for every bound a run from the start without failed pushes, of momentum orders alone, that ends above it with nothing resting or under way |
| LoopStaircase.ConfiguredLimitIsPassed | main.cpp:93 | so in main.cpp as it stands, with its limit of 100 and its queue, the position can pass 100 |
| LoopStaircase.Climb | strategy/momentum_strategy.hpp:45-68 | one step of such a run: the price goes up by one percent and one and one more buy is left resting, the position staying between minus the limit and 0 |
| LoopOverrun.LimitCanBeExceeded | strategy/market_maker_strategy.hpp:38-48 | with a book fed every tick: for every limit of at least one lot and every n that fits the queue, a run from the start without failed pushes, of market-maker quotes cancelled and still resting and one falling tick, that ends n lots long |
| LoopOverrun.BookAfter | orderbook/order_book.cpp:8-58 | the books of that run are what a book fed the handled ticks shows: after the opening trade and n+1 takers at one price, that price on both sides with the last quantity |
| LoopFate.RunIsAccounted | exchange/matching_engine.cpp:104-126 | without drops the reports handled and under way are, in order, what the exchange answers to the events handled, and each id reaches the exchange at most once |
| LoopFate.TradeIdsInRun | exchange/matching_engine.cpp:110 | without drops the reports handled and under way carry the trade ids 1, 2, 3, ... |
| LoopFate.TouchOfLastTick | exchange/matching_engine.cpp:15-17 | the best prices an arriving order meets are those of the last tick handled, 0 before the first |
| LoopFate.FateInRun | exchange/matching_engine.cpp:12-102 | without drops a limit order that reached the exchange has exactly the fills, handled or under way, that its side, its limit and the prices handled before and after it say |
| LoopLedger.QuantityIsConserved | main.cpp:143-163 | without drops, per side and per strategy and side: quantity accepted = queued, resting or in queued fills + in queued rejections + rejected + applied |
| LoopLedger.PositionsAgree | main.cpp:160-163 | after every step the risk position equals the sum of the strategies' positions and the signed sum of the fills applied, strategy by strategy |
| LoopLedger.ProfitIsCashPlusPosition | main.cpp:160-169 | total profit is always the cash of the fills plus the position at the price of the last report |
| LoopLedger.ProfitPerStrategy | main.cpp:160-169 | the same for each strategy by itself, with its number of closing fills and the price of the last report |
| LoopLedger.HistoryIsLastFills | main.cpp:171-177 | the trade history is the last 1000 fills applied, in order |
| LoopLedger.DrawdownOfRun | pnl/pnl_engine.cpp:20-21 | the reported drawdown is the largest drop of the equity marked over the whole run |
| LoopSafety.OnlyAcceptedOrdersFill | oms/order_manager.cpp:13-22 | every fill applied is the complete fill of an accepted order at a price within its limit; accepted orders have positive quantity and limit price; drops allowed |
| LoopSafety.ReportsAreExact | exchange/matching_engine.cpp:104-126 | every report handled or under way, at every moment, drops allowed, is a cancellation without content or right about an accepted order field by field: a fill has traded all of it and left nothing, a New or rejected order has traded nothing and left all |
| BatchLoop.TurnIsSingleSteps | main.cpp:117-183 | a drop-free turn is as many turns of a one-at-a-time loop as it found events: the same events handled in the same order, the same states, the same queue |
| BatchLoop.BatchRunIsSingleRun | main.cpp:117-183 | the same over whole drop-free runs, with the whole sequence of events handled, against a queue with three more places |
| BatchLoop.RunKeepsTicks | main.cpp:117-183 | the one-at-a-time run receives the same ticks in the same order |

## Left out

- RingProtocol.StepRefinesFifo: weak memory is modelled for the loads of the two indices only; a slot read after an index load sees the last write to it.
- RingBuffers.RingBuffer.Pop: the source default-constructs the slots; here a new ring's slots hold arbitrary values, which are never read.
- EventQueues.EventQueue.Push: two threads pushing into the single-producer ring at the same time, as `main.cpp` does, is not part of the loop; the queue here is atomic. What can then happen to the ring is `TwoProducers.TwoProducersLoseAnItem`.
- PnLEngines.PnLEngine.Fill: IEEE rounding is not modelled, and where the source divides by a zero position (a fill that exactly undoes a position below 1e-9) the average is left unchanged.
- PnLTheory.AccountingExact: leaves out fills that exactly undo a position below 1e-9, where the source divides by zero.
- PnLTheory.AverageEnvelopeExact: a fill that undoes only a part of a position below 1e-9 raises the average and may leave it inside or outside; such fills are left out of the exact condition.
- LoopExact.LimitIsKeptWithBookIff: for a queue with one to four places and a fed book only limits of at least 0.5 (`LoopStaircase.PositionIsUnbounded`) and below 0.1 are decided.
- PnLEngines.PnLEngine.UpdatePnl: strategies are visited in an arbitrary order, not by ascending id; the sums are over exact reals.
- OrderBooks.OrderBook.ApplyTrade: where the source divides by a sum of two quantities that is zero the imbalance is left as it was.
- OrderBooks.Sort: std::sort itself is not part of the source; any in-place sort with this contract will do, and an insertion sort stands in.
- MarketMakers.MarketMakerStrategy.OnMarketData: the clock test is an input, and a book whose two best quantities are each other's negative but not zero, where the imbalance of the source is infinite, is left out.
- MatchingEngines.LimitOrderFate: needs the order's id not to be in use; the loop's ids are unique while fewer than 1,000,000 quotes were issued.
- LoopLifecycle.ActiveOrdersAreLive: as the other theorems that ask for a run without drops, says nothing about runs in which a push failed, where an order's next event may be lost, or in which the id ranges have met.
- BatchLoop.BatchRunIsSingleRun: a turn's three later events wait in the batch array and not in the queue, so with equal capacities the one-at-a-time loop could drop where the batch loop does not.
- Order, trade and push counters are unbounded integers except in the latency metric, where wrap-around is modelled.
- Timestamps, symbols and latency monitoring carried by events are opaque to all of these components and not modelled.
- The event types that nothing emits (OrderResponse, RiskCheck, PnLUpdate) and the Partial status handling, which is a no-op.
- The strategy engine's vector of variants is the fixed pair of `main.cpp`, called in its order.
- Mutexes: each component is used by the processor thread only; reads by the UI thread are not modelled.
- Feeds, parser, replay and recorder, terminal UI, execution stub, memory pool, core pinning, logging and command line.
- `get_total_trades` and `get_win_rate`: plain counters.
