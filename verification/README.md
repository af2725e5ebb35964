# Trading platform: verification model

A Dafny model of the stateful core of the trading platform, with proofs about every run of it. Floats and decimals
are exact reals, TTL keys are expiry times, and tables are maps and sequences. Each source class is a Dafny class
whose methods are proved equal to a small specification function over the whole state; the theorems are then lemmas
about that function, over unbounded event sequences.

What each operation leaves is also stated outright, field by field and without the specification functions: in the
contracts of the methods, and for the two longest operations in `UpdateOutcomes` and `IntentOutcomes`.

| module | what it covers |
|---|---|
| `JobLifecycle` | the job status table and the paths through it |
| `ExecutionTables` | the job, order, fill and execution-event tables and their repository |
| `TradeIds` | the `<order id>:t<time>` trade ids built by the reconciler |
| `Reconciliation` | the reconciler: order updates, delivered at least once and in any order |
| `UpdateOutcomes`, `IntentOutcomes` | every row an exchange update, or a delivered intent, leaves |
| `RedisKeys`, `RiskGate` | expiring keys, the cooldown control and the risk gate |
| `ExecutionConsumer`, `ExecutionRuns` | one delivered intent, and all runs of deliveries, updates and operator stops |
| `OrderRuns` | consumer and reconciler together: open orders, redelivery and conservation over all runs |
| `Indicators`, `EmaCrossover` | EMA, RSI, ATR and VWAP bar by bar, and the crossover strategy on top of them |
| `Flow` | CVD, windowed volumes, and the least-squares CVD slope |
| `OrderBook`, `BookReplay` | merging depth deltas into a sorted book, once and repeatedly |
| `BookIntegrity` | sequence tracking of a depth stream |
| `WallTracking` | wall detection, wall ages and the spoofing alert |
| `Liquidations` | liquidation buckets and clusters |
| `OAuth` | authorization codes and bearer tokens, in every interleaving of the two endpoints |
| `Sequences`, `OrderedDict`, `StableSorting`, `Wrappers` | sums and deques, Python's `dict` and `sorted`, `Option` |

`dafny verify dfyconfig.toml` checks the whole project.

## Where the code and its promise part

Each of these is stated as a lemma with the exact condition under which the promise holds, and a lemma at an input
where it does not.

- **Idempotent jobs.** README.md:119 says that the deterministic client order id prevents duplicate execution. The
  only barriers are the job lock and the cooldown, and both expire: `ExecutesTwiceExactly` says exactly when an intent
  delivered twice is executed twice, `OneIntentCanExecuteTwice` gives such a run with the default lifetimes and all
  seven checks passing, and `ResubmissionIsUnrecorded` shows that the second submission, which comes under a job id
  without a row, leaves no trace in the tables.
- **Private streams are the truth.** README.md:114 promises that fills come from the user stream. The consumer marks a
  job filled for every accepted response, including one that reports no fill. What the stream reports about that order
  afterwards is dropped (`PlacedOrderIsNotReconciled`); `UpdatesAreDroppedExactly` says that it counts only if the
  order's own fill row collided with a known trade id.
- **Redelivered order updates** change nothing in any reachable state, from the delivery that creates the job on
  (`RedeliveryInARunHasNoEffect`), and nothing from any tables at all for streams whose final fills agree and bound
  the partial ones (`ConsistentRedeliveryHasNoEffect`). Over arbitrary streams from arbitrary tables they are harmless
  exactly if no order row belongs to a job that is neither over nor acknowledged nor partially filled
  (`RedeliveryIsSafeExactly`). Its counterexample violates both: its job cannot be reached with an order row
  (`OrdersAlwaysSettle`), and its two `FILLED` updates contradict each other.
- **Fill conservation.** Partial fills never lose quantity. A final `FILLED` update does so exactly if its leg is
  negative, or positive with a trade id that is already recorded (`StepConserves`, `Lossy`): a partial and the final
  fill of one order in the same millisecond share a trade id, and the final leg is lost
  (`SharedTradeIdLosesTheFinalLeg`). From empty tables the reconciler finds an order open only if the consumer's own
  fill row for it collided with another order's (`OnlyCollidedOrdersStayOpen`), as two symbols' orders with one
  exchange number do; `FinalFillLosesItsLegInARun` is such a run, ending at filled quantity 2 with legs of 0.5.
- **Sequence gaps.** The class rule is that after a gap the book must be seeded again from a snapshot
  (book_integrity.py:10-14). `on_delta` compares ids alone: after a gap it still accepts, and reports as in sequence,
  a delta that follows the last accepted id, and the book stays invalid (`AcceptedDeltaOnABrokenBook`,
  `AcceptanceDoesNotImplyValidity`).
- **Replaying a book delta** changes nothing exactly unless the delta zeroes a price and adds it again, and only then
  adds another text of the same value that the book did not have and that the delta never zeroes
  (`ReplayIsHarmlessExactly`, `ReplayedTie`). So a delta that names no price text twice replays harmlessly however
  prices are written, and so does one whose own prices are canonical; merging in one or in several steps always gives
  the same book.
- **Spoofing flags** are promised for walls that vanish without their level being traded through
  (book_analytics.py:92-94). The level is never compared with the price: the promise is kept exactly if no wall that
  vanishes young is at a level the price of that update has passed (`OnlyUntradedWallsAreFlaggedExactly`,
  `TradedThroughWallRaisesTheAlert`).
- **Liquidation buckets** use truncation, so a negative price that is no whole number of bucket sizes falls outside
  the interval its own cluster reports (`OwnIntervalExactly`, `NegativePriceIsMisplaced`).
- **The crossover strategy** divides by EMA21: it raises exactly when EMA21 is 0 and EMA9 is not (`ConfidenceRange`).
  No run with non-negative closes gets there (`NonNegativeClosesNeverRaise`); one with a negative close does
  (`NegativeClosesCanRaise`).
- **Token requests.** Section 4.1.3 of RFC 6749 wants the redirect URI repeated and the code bound to the client. A
  granted request meets it exactly if it names a redirect URI and the right client
  (`GrantsMeetSection413Exactly`); neither is required for the grant (`GrantOutsideSection413`).

## Model

| member | source | states |
|---|---|---|
| `JobLifecycle.LegalPathsDescend` | services/execution/jobs/lifecycle.py:3-14 | every path through the transition table strictly descends by rank, so no status repeats, a path has at most six transitions, and a terminal status can only come last |
| `JobLifecycle.SixTransitionsIsTheMaximum` | services/execution/jobs/lifecycle.py:3-18 | seven statuses is the exact maximum of a path: one from queued has seven and none has more |
| `JobLifecycle.EnteredFrom` | services/execution/jobs/lifecycle.py:3-38 | the table read by target: from which statuses each status can be entered, and that exactly blocked, filled, canceled and rolled_back are terminal |
| `ExecutionTables.ExecutionRepository.CreateJob` | services/execution/persistence/repository.py:38-66 | adds a queued row and its event, unless the client order id already has a row; then it fails and nothing changes |
| `ExecutionTables.ExecutionRepository.GetJobByClientOrderId` | services/execution/persistence/repository.py:68-76 | finds the row of a client order id, if there is one |
| `ExecutionTables.ExecutionRepository.UpdateJobStatus` | services/execution/persistence/repository.py:78-102 | writes status, result if given, and one event; a job id without a row changes nothing |
| `ExecutionTables.ExecutionRepository.CreateOrder` | services/execution/persistence/repository.py:106-141 | adds an order row, unless the client order id already has one or the job id has no row to refer to; then it fails and nothing changes |
| `ExecutionTables.ExecutionRepository.GetOrderByClientOrderId` | services/execution/persistence/repository.py:185-193 | finds the order of a client order id, if there is one |
| `ExecutionTables.ExecutionRepository.GetFillByExchangeTradeId` | services/execution/persistence/repository.py:195-204 | finds a fill of this account and trade id exactly if the table holds one |
| `ExecutionTables.ExecutionRepository.InsertFill` | services/execution/persistence/repository.py:206-239 | appends the row, unless the account already has the trade id; then it fails and nothing changes |
| `ExecutionTables.ExecutionRepository.UpdateOrderFilledQty` | services/execution/persistence/repository.py:241-257 | replaces filled quantity, average price and status of an existing order and nothing else |
| `ExecutionTables.AddFillKeepsTradesUnique` | shared/db/models/account.py:154 | inserting keeps (account, trade id) unique |
| `TradeIds.FormatInjective` | services/execution/reconciliation/event_consumer.py:283 | two trade ids are equal only for the same exchange order id and trade time, even if the order id contains colons and digits |
| `TradeIds.DecimalDenotes` | services/execution/reconciliation/event_consumer.py:283 | the time in a trade id is written as its decimal number, with a minus sign if negative |
| `Reconciliation.NormalizedEventConsumer.HandleUserOrder` | services/execution/reconciliation/event_consumer.py:106-207 | the tables end as the specification says; one fill is counted per row inserted, and one orphan per update that is not ours, has no job, or whose job is over; without a repository only foreign updates count |
| `Reconciliation.NormalizedEventConsumer.HandleCancel` | services/execution/reconciliation/event_consumer.py:211-247 | a submitted, acknowledged or partially filled job becomes canceled, any other keeps its status, and orders and fills stay |
| `Reconciliation.NormalizedEventConsumer.HandlePartialFill` | services/execution/reconciliation/event_consumer.py:251-341 | a positive leg with a new trade id is recorded, the order total and both statuses follow; any other event changes nothing |
| `Reconciliation.NormalizedEventConsumer.HandleFullFill` | services/execution/reconciliation/event_consumer.py:345-398 | the order total always becomes the reported one, and a leg is recorded only if positive and new |
| `Reconciliation.NormalizedEventConsumer.FinalizeFill` | services/execution/reconciliation/event_consumer.py:402-428 | filled is written only if the status read before allows it |
| `Reconciliation.StepFrame` | services/execution/reconciliation/event_consumer.py:130-207 | an update touches the job and order of its own client order id only; fills and history only grow, and no row appears or disappears |
| `UpdateOutcomes.RoutedExactly` | services/execution/reconciliation/event_consumer.py:112-166 | exactly the updates with our prefix whose job exists and is not over are acted on; all others, and unknown order statuses, change nothing |
| `UpdateOutcomes.CancelOutcome` | services/execution/reconciliation/event_consumer.py:176-247 | CANCELED, REJECTED and EXPIRED alike make a submitted, acknowledged or partially filled job canceled and record it; any other update of this kind changes nothing |
| `UpdateOutcomes.PartialFillOutcome` | services/execution/reconciliation/event_consumer.py:265-341 | all rows after a partial fill: nothing new changes nothing; otherwise one fill row with every field, the order's total, price and status, and the job's statuses and result |
| `UpdateOutcomes.FullFillOutcome` | services/execution/reconciliation/event_consumer.py:359-428 | all rows after a final fill: the order filled at the reported total and price, a fill row exactly if the leg is positive and new, and the job filled if it was acknowledged or partially filled |
| `Reconciliation.AbsorbedExactly` | services/execution/reconciliation/event_consumer.py:154-207 | an update changes no table if and only if its guard is shut: job over, leg not positive or known, or order and status already as it would leave them |
| `Reconciliation.ProcessedIsAbsorbed` | services/execution/reconciliation/event_consumer.py:154-207 | from any tables, processing an update shuts the guard against it |
| `Reconciliation.AbsorbedIsStable` | services/execution/reconciliation/event_consumer.py:277-288 | no later update, of the same or another order, opens that guard again, if the order's job is settling or the two updates agree |
| `Reconciliation.RedeliveryHasNoEffect` | services/execution/reconciliation/event_consumer.py:277-288 | at-least-once delivery has exactly-once effect: unless the order's job is not settling, redelivering any processed update at any later point of any stream leaves all tables unchanged |
| `Reconciliation.ConsistentRedeliveryHasNoEffect` | services/execution/reconciliation/event_consumer.py:371-398 | the same from any tables and any status, for streams in which an order's final fills agree on quantity and price and no partial fill exceeds them |
| `Reconciliation.RepetitionsHaveNoEffect` | services/execution/reconciliation/event_consumer.py:277-288 | under either condition a whole stream leaves exactly the tables it would leave with every repetition struck out |
| `Reconciliation.RedeliveryIsSafeExactly` | services/execution/reconciliation/event_consumer.py:371-398 | over all streams, consistent or not, every redelivery for an order is harmless if and only if it has no order row or its job's status at the start still leads to filled directly or is terminal |
| `Reconciliation.StepConserves` | services/execution/reconciliation/event_consumer.py:277-310 | filled quantity minus recorded legs changes in a step only if a final fill is lossy, and then by exactly its leg |
| `Reconciliation.FilledQtyIsConserved` | services/execution/reconciliation/event_consumer.py:371-397 | over every stream, filled quantity is the initial one plus the recorded legs plus what lossy final fills moved |
| `Reconciliation.PartialFillsLoseNothing` | services/execution/reconciliation/event_consumer.py:277-310 | without final fills of the order nothing is lost, whatever trade ids collide |
| `Reconciliation.SharedTradeIdLosesTheFinalLeg` | services/execution/reconciliation/event_consumer.py:374-397 | a partial and a final fill of one execution time leave the final quantity, but only the partial's leg |
| `Reconciliation.LegsArePositiveAndUnique` | services/execution/reconciliation/event_consumer.py:277-303 | every leg any stream records is positive, and (account, trade id) stays unique |
| `Reconciliation.PartialsReachTheMaximum` | services/execution/reconciliation/event_consumer.py:277-325 | incomplete partial fills with fresh, distinct executions end at the largest cumulative quantity, with legs adding up to the gain |
| `Reconciliation.PartialFillsCommute` | services/execution/reconciliation/event_consumer.py:277-325 | any two orders of arrival of the same partial fills leave the same filled quantity, leg total and job status |
| `Reconciliation.FinalFillDecides` | services/execution/reconciliation/event_consumer.py:345-398 | wherever the final fill arrives among the partial ones, and whatever comes after it, the job ends filled at the final quantity with legs for all of the gain |
| `Reconciliation.CompleteStreamsCommute` | services/execution/reconciliation/event_consumer.py:277-398 | any order of arrival of an order's partial fills and its final fill ends so |
| `RedisKeys.Redis.SetIfAbsent` | services/execution/consumer.py:120-122 | the key is taken exactly if it is not live, and then expires after the lifetime |
| `RedisKeys.CooldownControl.IsOnCooldown` | services/execution/controls/cooldown.py:13-14 | true exactly while the cooldown key is live |
| `RedisKeys.CooldownControl.SetCooldown` | services/execution/controls/cooldown.py:16-19 | restarts the window from now, replacing any earlier expiry |
| `RedisKeys.CooldownControl.ClearCooldown` | services/execution/controls/cooldown.py:21-22 | ends the window and touches no other key |
| `RiskGate.ExecutionRiskEngine.Evaluate` | services/execution/risk/engine.py:55-141 | passes exactly if kill switch, pauses, circuit breaker and cooldown are off and every structural check passes; the first live one in this order is the only failure and nothing later is consulted, otherwise every failing check is reported and every check is recorded |
| `RiskGate.NoReasonsMeansAllPassed` | services/execution/risk/engine.py:128-136 | the collected failures are empty exactly if every structural check passed |
| `RiskGate.FailedReasonsExactly` | services/execution/risk/engine.py:128-133 | there is one reason per failing check, in the order of the checks: its reason, or its name if that is empty |
| `RiskGate.GateOpensExactly` | services/execution/risk/engine.py:67-136 | the gate is open exactly if kill switch, user pause, symbol pause, circuit breaker and cooldown are all off and every check passes |
| `RiskGate.ExecutionRiskEngine.ConsultStops` | services/execution/risk/engine.py:67-113 | the five stops in order: the first live one ends the consultation with its own reason |
| `RiskGate.RecordedStopsTellTheKeys` | services/execution/risk/engine.py:67-113 | the stops recorded are those consulted, each passed exactly if its key is not live |
| `RiskGate.RecordedChecks` | services/execution/risk/engine.py:128-129 | after the five stops each structural check is recorded under its name with its result |
| `ExecutionConsumer.Consumer.ProcessIntent` | services/execution/consumer.py:118-134 | outcome, tables, keys and counters of one delivery, in all five outcomes; a delivery that meets a live lock changes nothing |
| `ExecutionConsumer.Consumer.ProcessLocked` | services/execution/consumer.py:147-198 | with the lock held: an insert that fails is ignored, a raising risk engine fails the job, a closed gate blocks it |
| `ExecutionConsumer.Consumer.SubmitApproved` | services/execution/consumer.py:200-274 | the cooldown starts only after an accepted submission; a rejected or raising one fails the job and starts none |
| `ExecutionConsumer.Consumer.PersistExecution` | services/execution/consumer.py:230-258 | order, fill and filled status are written in this order, and the first constraint violation, of a unique column or of the job's foreign key, ends the block without undoing what was written |
| `IntentOutcomes.OutcomeExactly` | services/execution/consumer.py:118-227 | which of the five outcomes a delivery has, by lock, risk engine, each of the five stops, the checks and the adapter, as it finds them |
| `IntentOutcomes.KeysOutcome` | services/execution/consumer.py:120-122 | a delivery that finds the lock free takes it for its lifetime, and the cooldown is started by executions only |
| `IntentOutcomes.UnexecutedIntentOutcome` | services/execution/consumer.py:188-227 | a duplicate leaves no trace; a raising engine or failed submission leaves a failed job, a closed gate a blocked one, with the statuses recorded on the way and no order or fill |
| `IntentOutcomes.ExecutedIntentOutcome` | services/execution/consumer.py:229-258 | all rows after an execution: the order with every field, the fill row if price and quantity are reported and the trade id is new, and the job's recorded statuses and result |
| `ExecutionRuns.CooldownSeparatesExecutions` | services/execution/consumer.py:181-198 | in every run, after an execution on a symbol no intent on it passes the gate until the cooldown after it is over |
| `ExecutionRuns.ExecutionsAreSpaced` | services/execution/risk/engine.py:104-113 | in every run, n executions on one symbol span at least n - 1 cooldowns |
| `ExecutionRuns.LockSeparatesSubmissions` | services/execution/consumer.py:118-134 | in every run, two deliveries of one client order id that both get past the lock are at least a lock lifetime apart |
| `ExecutionRuns.ResubmittedExactlyAfterTheLock` | services/execution/consumer.py:118-215 | an intent, whether or not it has a job already, reaches the adapter if and only if its lock is free, the risk engine does not raise and the gate is open |
| `ExecutionRuns.ResubmissionIsUnrecorded` | services/execution/consumer.py:147-151 | redelivering an intent that has its job row, under a new job id, changes no table, even if it is executed again |
| `ExecutionRuns.ExecutesTwiceExactly` | services/execution/consumer.py:118-271 | two deliveries of one intent in clock order both execute if and only if nothing objects to either, the lock of the first has expired when the second asks for it, and so has its cooldown when the second gate is evaluated |
| `ExecutionRuns.OneIntentCanExecuteTwice` | README.md:119 | with the default lifetimes of 30 and 300 seconds there is a run in which one intent is executed twice, with all seven checks made and passed both times |
| `ExecutionRuns.ExecutedExactly` | services/execution/consumer.py:118-227 | an intent is executed if and only if its lock is free, no hard stop is live, and neither engine, checks nor adapter object |
| `ExecutionRuns.DeliveryKeepsHistories` | services/execution/consumer.py:146-258 | the unguarded status writes of the consumer follow the transition table in every outcome |
| `ExecutionRuns.UpdateKeepsHistories` | services/execution/reconciliation/event_consumer.py:312-341 | so do the reconciler's, including the final write that is guarded by a status read before the previous write |
| `ExecutionRuns.EveryHistoryIsLegal` | services/execution/jobs/lifecycle.py:3-26 | in every run of deliveries, updates and stops, each job's recorded statuses are a legal path from queued to its present status, with at most seven entries |
| `ExecutionRuns.TerminalJobsNeverChange` | services/execution/reconciliation/event_consumer.py:154-166 | a job whose status is terminal keeps its whole row through every run |
| `OrderRuns.NewJobSettles` | services/execution/consumer.py:146-258 | a delivery of a new intent creates an order exactly if it executes, and its job then is filled, or acknowledged if the fill row's trade id was known |
| `OrderRuns.OrdersAlwaysSettle` | services/execution/consumer.py:221-258 | in every run each order row belongs to a job that a fill can still finish or that is over |
| `OrderRuns.RedeliveryInARunHasNoEffect` | services/execution/reconciliation/event_consumer.py:277-288 | in every run from empty tables, an update processed after the delivery of its job can be redelivered at any later point without changing anything, whatever deliveries, updates and stops come between |
| `OrderRuns.RepeatedUpdatesHaveNoEffect` | services/execution/reconciliation/event_consumer.py:277-288 | a whole run from empty tables leaves the tables and keys it would leave with every repeated update struck out, if the update first came after the delivery of its job |
| `OrderRuns.UpdatesAreDroppedExactly` | services/execution/adapter/live.py:149-175 | after an accepted delivery of a new intent every update of its order changes nothing if and only if there was no fill row to write or its trade id was new |
| `OrderRuns.FilledJobsIgnoreLaterUpdates` | services/execution/consumer.py:236-256 | and that holds at the end of every run that follows |
| `OrderRuns.PlacedOrderIsNotReconciled` | services/execution/consumer.py:240-256 | an order accepted without a fill keeps filled quantity 0 and no fill row after any later update, while its job says filled |
| `OrderRuns.BooksBalance` | services/execution/consumer.py:243-246 | over every run, what an order's total exceeds its legs by changes only by what an execution books without a fill row and what lossy final fills move |
| `OrderRuns.FilledQtyOfARun` | services/execution/reconciliation/event_consumer.py:371-397 | from empty tables, every order's filled quantity is the sum of its legs plus those losses |
| `OrderRuns.OnlyCollidedOrdersStayOpen` | services/execution/consumer.py:246-258 | in every run from empty tables an order whose job is not over has the trade id of another order's fill |
| `OrderRuns.FinalFillLosesItsLegInARun` | services/execution/reconciliation/event_consumer.py:374-397 | two executions with one exchange order id, then 1.5 of 2 and 2 of 2 in one millisecond: filled quantity 2, legs of 0.5 |
| `Indicators.EmaStaysWithinCloses` | services/analytics/engines/indicators.py:130-138 | every EMA lies between the smallest and the largest close of the whole history |
| `Indicators.WilderSign` | services/analytics/engines/indicators.py:157-160 | a Wilder average of non-negative values is never negative, and zero exactly if all of them were |
| `Indicators.RsiRange` | services/analytics/engines/indicators.py:102-108 | RSI is in [0, 100]; it is 100 exactly if no close ever fell, and 0 exactly if some fell and none ever rose |
| `Indicators.AtrIsNonNegative` | services/analytics/engines/indicators.py:162-177 | ATR exists from bar 14 on and is not negative if every high is at least its low |
| `Indicators.VwapStaysWithinTheRange` | services/analytics/engines/indicators.py:110-112 | VWAP is within the lowest low and highest high since the reset, and absent exactly if nothing was traded since |
| `Indicators.DequesHoldTheLastBars` | services/analytics/engines/indicators.py:78-81 | after any bars and resets the deques hold the last 250 bars, or all of them if fewer |
| `Indicators.EmaStep` | services/analytics/engines/indicators.py:130-138 | the incremental rule on the bounded window seeds an EMA at bar p exactly and afterwards follows its recursive definition |
| `Indicators.EmaEqualsBatch` | services/analytics/engines/indicators.py:130-138 | each tracked EMA equals its definition over the full history |
| `Indicators.RsiAveragesEqualBatch` | services/analytics/engines/indicators.py:140-160 | both RSI averages equal Wilder's definition over all moves, seeded at bar 15 exactly |
| `Indicators.AtrEqualsBatch` | services/analytics/engines/indicators.py:162-177 | ATR equals Wilder's definition over all true ranges, seeded at bar 14, although 19 are kept |
| `Indicators.VwapEqualsBatch` | services/analytics/engines/indicators.py:179-182 | the two running sums equal turnover and volume of the bars since the reset |
| `Indicators.IncrementalEqualsBatch` | services/analytics/engines/indicators.py:62-126 | what the engine reports after any bars and resets is what the definitions over the full history say |
| `Indicators.ReportedAverages` | services/analytics/engines/indicators.py:94-100 | the four reported averages are the EMA of 9, 21, 50 and 200 over all closes, from bar 9, 21, 50 and 200 on |
| `Indicators.ReportedRsi` | services/analytics/engines/indicators.py:102-108 | RSI is reported from bar 15 on, as the average gain over average gain plus average loss, in percent |
| `Indicators.ReportedAtr` | services/analytics/engines/indicators.py:162-177 | ATR is reported from bar 14 on, as Wilder's average of all true ranges |
| `Indicators.ReportedVwap` | services/analytics/engines/indicators.py:110-112 | VWAP is that of the bars since the reset |
| `Indicators.EmaSeed` | services/analytics/engines/indicators.py:132-135 | p times the first EMA value is the sum of the first p closes |
| `Indicators.EmaNext` | services/analytics/engines/indicators.py:136-138 | (p + 1) times the next value is twice the new close plus p - 1 times the old value |
| `Indicators.WilderDefinition` | services/analytics/engines/indicators.py:155-160 | fourteen times the average is the sum of fourteen values, and later thirteen times the old average plus the new value |
| `Indicators.MovesExactly` | services/analytics/engines/indicators.py:151-154 | each step between closes counts as the rise or fall it makes |
| `Indicators.TrueRangeExactly` | services/analytics/engines/indicators.py:163-170 | the true range spans the bar and the previous close |
| `Indicators.TrueRangeIsTheLargest` | services/analytics/engines/indicators.py:166-170 | for any bar it is the largest of the three distances |
| `Indicators.RsiIsAShare` | services/analytics/engines/indicators.py:107-108 | the RSI formula is the share of the average gain in percent |
| `Indicators.VwapDefinition` | services/analytics/engines/indicators.py:179-182 | a bar adds a third of high plus low plus close, times volume, to the one sum and its volume to the other |
| `Indicators.VwapIsTheMean` | services/analytics/engines/indicators.py:110-112 | VWAP times the volume since the reset is the turnover since the reset, and it is absent exactly without volume |
| `Indicators.IndicatorEngine.OnKlineClose` | services/analytics/engines/indicators.py:62-87 | one bar makes one step: columns first, then each indicator against the previous close, which is replaced last |
| `Indicators.IndicatorEngine.UpdateEmas` | services/analytics/engines/indicators.py:130-138 | the loop updates all four averages by the rule of their own period |
| `Indicators.IndicatorEngine.UpdateRsi` | services/analytics/engines/indicators.py:140-160 | both averages are seeded together at the fifteenth close, smoothed afterwards, and never negative |
| `Indicators.IndicatorEngine.UpdateAtr` | services/analytics/engines/indicators.py:162-177 | the true range enters the buffer, then seeds or smooths ATR |
| `Indicators.IndicatorEngine.UpdateVwap` | services/analytics/engines/indicators.py:179-182 | adds typical price times volume, and volume |
| `Indicators.IndicatorEngine.ResetVwap` | services/analytics/engines/indicators.py:89-92 | clears the two sums and leaves every other indicator alone |
| `Indicators.IndicatorEngine.Compute` | services/analytics/engines/indicators.py:94-126 | reports the values of the state, without ever dividing by zero |
| `EmaCrossover.EmaAboveRunningMean` | services/analytics/engines/indicators.py:130-138 | on non-decreasing closes an EMA is at least the mean of all closes so far, and above it on increasing ones |
| `EmaCrossover.ShortEmaLeads` | services/analytics/engines/indicators.py:130-138 | for p < q, EMA p is at least EMA q from bar q on for every non-decreasing series, and greater for every increasing one |
| `EmaCrossover.EmaNegated` | services/analytics/engines/indicators.py:130-138 | reflecting the closes reflects the EMA |
| `EmaCrossover.ShortEmaTrails` | services/analytics/engines/indicators.py:130-138 | on falling series the order of the two averages is reversed |
| `EmaCrossover.ConfidenceRange` | services/strategy_service/strategies/ma_crossover.py:77-97 | raises exactly if EMA21 is 0 and EMA9 is not; otherwise signals exactly if they differ, with confidence in (0, 1] exactly if EMA21 is positive |
| `EmaCrossover.EvaluationExactly` | services/strategy_service/strategies/ma_crossover.py:57-118 | the whole result: degraded without both averages, silent with confidence 0 if they are equal, else the direction of the short one and the gap in percent of the long one, at most 1 |
| `EmaCrossover.RisingClosesNeverSell` | services/strategy_service/strategies/ma_crossover.py:57-118 | after any run with at least 21 positive, non-decreasing closes the strategy does not sell; if they increase, it buys with confidence in (0, 1] |
| `EmaCrossover.FallingClosesNeverBuy` | services/strategy_service/strategies/ma_crossover.py:57-118 | the dual for non-increasing and decreasing closes |
| `EmaCrossover.EmaSign` | services/analytics/engines/indicators.py:130-138 | an EMA of non-negative closes is never negative, and zero exactly if all of them are |
| `EmaCrossover.NonNegativeClosesNeverRaise` | services/strategy_service/strategies/ma_crossover.py:74-97 | after any run with at least 21 non-negative closes, monotone or not, the strategy does not raise and every signal has a confidence in (0, 1] |
| `EmaCrossover.NegativeClosesCanRaise` | services/strategy_service/strategies/ma_crossover.py:77-82 | a run of 21 bars, the last with a negative close, after which it divides by zero |
| `Flow.DeltaIsBuyMinusSell` | services/analytics/engines/flow.py:51-76 | over any trades the deltas add up to buy minus sell volume, and the quantities to their sum |
| `Flow.OneMoreTrade` | services/analytics/engines/flow.py:14-17 | a trade whose buyer was the maker is a sell and lowers the CVD, any other is a buy and raises it |
| `Sequences.LastExactly` | services/analytics/engines/flow.py:52 | a window of n holds the last n elements in order, or all of them if there are fewer |
| `Flow.AggressionIsAShare` | services/analytics/engines/flow.py:55-63 | for non-negative quantities the ratio is buys over buys plus sells, in [0, 1], is 1 exactly without sells, and is absent exactly without volume |
| `Flow.CrossByParts` | services/analytics/engines/flow.py:101-108 | the least-squares numerator, by parts: weighted per-trade deltas less a boundary term |
| `Flow.SpreadByParts` | services/analytics/engines/flow.py:109 | the denominator in the same weights |
| `Flow.SpreadOfAWindow` | services/analytics/engines/flow.py:109 | the denominator is n(n*n - 1)/12 |
| `Flow.SpreadIsPositive` | services/analytics/engines/flow.py:109-110 | so the guard against zero never fires for two or more trades |
| `Flow.SlopeIsAWeightedMean` | services/analytics/engines/flow.py:101-110 | the slope is the mean of the deltas after the first, with positive weights |
| `Flow.SlopeNeedsThreeTrades` | services/analytics/engines/flow.py:98-99 | there is a slope exactly for three or more trades |
| `Flow.SlopeBounds` | services/analytics/engines/flow.py:92-110 | for three or more trades the slope exists and lies between the smallest and largest delta of trades 2 to n |
| `Flow.SlopeIgnoresTheFirst` | services/analytics/engines/flow.py:92-110 | the first trade of the window has no influence on the slope |
| `Flow.BuyOnlySlope` | services/analytics/engines/flow.py:92-110 | buy-only flow never slopes down, and equal buys of q have slope exactly q |
| `Flow.FlowEngine.OnTrade` | services/analytics/engines/flow.py:34-42 | keeps the window the last trades of the history and the CVD the sum of all deltas since the reset |
| `Flow.FlowEngine.ResetCvd` | services/analytics/engines/flow.py:44-45 | zeroes the CVD and keeps the window |
| `Flow.FlowEngine.ComputeDelta` | services/analytics/engines/flow.py:51-53 | the sum of the last deltas; it is the change of the CVD if the window reaches neither past the deque nor past the reset |
| `Flow.FlowEngine.ComputeBuySellVolumes` | services/analytics/engines/flow.py:72-76 | the two sides of the window, whose difference is the delta over the same window |
| `Flow.FlowEngine.ComputeAggressionRatio` | services/analytics/engines/flow.py:55-63 | the share of the last trades that were taker buys, absent without volume |
| `Flow.FlowEngine.CvdSlope` | services/analytics/engines/flow.py:92-110 | the loop over running sums computes the least-squares slope of the window's deltas |
| `OrderBook.ApplyDelta` | services/normalizer/handlers/orderbook.py:117-148 | bids come highest first and asks lowest first, strictly where prices are canonical; bid deltas act on the bids and ask deltas on the asks; update id and time are the delta's |
| `OrderBook.MergingIsCompositional` | services/normalizer/handlers/orderbook.py:117-148 | merging one delta and then another gives exactly the list that merging both at once gives, for all price texts, canonical or not |
| `OrderBook.StreamEqualsOneMerge` | services/normalizer/handlers/orderbook.py:103-112 | the book after a whole stream of deltas is one merge of all of them |
| `OrderBook.MergeRefinesMap` | services/normalizer/handlers/orderbook.py:124-141 | the merged side has one level per price and holds exactly the price-to-quantity map with the deltas applied |
| `OrderBook.LastDeltaWins` | services/normalizer/handlers/orderbook.py:127-137 | the last delta of a price decides: absent if its quantity is zero, else that quantity |
| `OrderBook.UntouchedPriceKeepsItsLevel` | services/normalizer/handlers/orderbook.py:124-137 | a price without deltas keeps its old level |
| `OrderBook.MergedSideIsSorted` | services/normalizer/handlers/orderbook.py:139-141 | the merged side is ordered by its sort key; with canonical price texts strictly |
| `OrderBook.SideOrder` | services/normalizer/handlers/orderbook.py:139-141 | a bid side never rises and an ask side never falls in price, strictly so where prices are canonical |
| `OrderBook.MergedBook` | services/normalizer/handlers/orderbook.py:117-148 | both sides of the merged book: order of prices and the levels held |
| `OrderBook.LastLevelCounts` | services/normalizer/handlers/orderbook.py:124-125 | a book that lists a price twice counts its last level |
| `OrderBook.NoBookWithoutASnapshot` | services/normalizer/handlers/orderbook.py:71-74 | no stream of deltas makes a book |
| `OrderBook.MergeStaysZeroFree` | services/normalizer/handlers/orderbook.py:127-137 | a side without zero quantities never gets one |
| `BookReplay.ReplayKeepsTheMap` | services/normalizer/handlers/orderbook.py:124-137 | a replayed delta leaves the same price-to-quantity map |
| `BookReplay.OrderByInsertion` | services/normalizer/handlers/orderbook.py:127-137 | of two price texts the one inserted earlier comes first, and texts there from the start keep their order |
| `BookReplay.ReplayIsHarmlessExactly` | services/normalizer/handlers/orderbook.py:117-148 | for all levels, deltas and price texts, a replay changes nothing if and only if no text is zeroed and re-added before an equal-valued one, which is new and never zeroed, is added |
| `BookReplay.DeltaWithoutRepeatsReplaysHarmlessly` | services/normalizer/handlers/orderbook.py:117-148 | a delta that names no price text twice replays without effect, however prices are written |
| `BookReplay.MergingTwiceIsMergingOnce` | services/normalizer/handlers/orderbook.py:117-148 | a delta whose own price texts are canonical replays without effect, whatever the book holds |
| `BookReplay.IdempotentExactlyWhenCanonical` | services/normalizer/handlers/orderbook.py:117-148 | over a set of price texts, every delta on every book replays without effect if and only if distinct texts have distinct values |
| `BookReplay.ReplayedTie` | services/normalizer/handlers/orderbook.py:139-141 | the counterexample: two texts of one price change places when a delta is replayed |
| `StableSorting.SortIsStable` | services/normalizer/handlers/orderbook.py:140-141 | sorting keeps the relative order of levels of equal price |
| `StableSorting.ClassesDetermine` | services/normalizer/handlers/orderbook.py:140-141 | an ordered list is determined by its levels of each price, so the sorted result is unique |
| `OrderedDict.PutSpec` | services/normalizer/handlers/orderbook.py:131 | assigning a key changes that key only and keeps keys unique |
| `OrderedDict.PopSpec` | services/normalizer/handlers/orderbook.py:129 | popping a key removes that key only and keeps keys unique |
| `OrderedDict.PutPrecedes` | services/normalizer/handlers/orderbook.py:131 | assigning keeps the order of all keys and puts a new one last |
| `OrderedDict.PopPrecedes` | services/normalizer/handlers/orderbook.py:129 | popping keeps the order of the other keys |
| `BookIntegrity.BookIntegrityState.OnSnapshot` | services/analytics/engines/book_integrity.py:25-33 | a snapshot restarts the tracking, whatever came before |
| `BookIntegrity.BookIntegrityState.OnDelta` | services/analytics/engines/book_integrity.py:35-60 | applied exactly if there is a snapshot and the next id lies in the delta; invalidates the book exactly if it starts beyond the next id; every field afterwards |
| `BookIntegrity.BookIntegrityState.Invalidate` | services/analytics/engines/book_integrity.py:62-65 | marks the book invalid and keeps its position |
| `BookIntegrity.EveryIdIsCovered` | services/analytics/engines/book_integrity.py:41-60 | in every run each id after the last snapshot's, up to the tracked one, lies in a delta accepted since that snapshot |
| `BookIntegrity.SnapshotIsSeen` | services/analytics/engines/book_integrity.py:25-39 | the position is known exactly after a snapshot, and never falls behind it |
| `BookIntegrity.AcceptanceMovesForward` | services/analytics/engines/book_integrity.py:41-60 | the tracked id strictly grows on acceptance and moves at no other time |
| `BookIntegrity.AppliedExactly` | services/analytics/engines/book_integrity.py:35-60 | in every run a delta is applied exactly if it contains the next id, however far back it starts, is a gap exactly if it starts beyond it, and otherwise changes neither position nor validity |
| `BookIntegrity.ValidityIsExact` | services/analytics/engines/book_integrity.py:25-65 | the book is valid if and only if there is a snapshot with no gap and no invalidation after it |
| `BookIntegrity.AcceptedDeltaOnABrokenBook` | services/analytics/engines/book_integrity.py:36-60 | an accepted delta leaves a valid book if and only if nothing disturbed it since the snapshot |
| `BookIntegrity.AcceptanceDoesNotImplyValidity` | services/analytics/engines/book_integrity.py:35-60 | a concrete run in which a delta is accepted on an invalid book |
| `BookIntegrity.CountersAddUp` | services/analytics/engines/book_integrity.py:32-59 | applied plus skipped counts every delta since the last snapshot once |
| `WallTracking.WallDetector.Update` | services/analytics/engines/book_analytics.py:110-136 | tracked walls and result, both sides scanned before anything expires |
| `WallTracking.WallDetector.ScanSide` | services/analytics/engines/book_analytics.py:138-185 | the loop refreshes or adds a wall for exactly the levels that are large in notional and against the average |
| `WallTracking.WallDetector.ProcessDisappearances` | services/analytics/engines/book_analytics.py:121-133 | every tracked wall that did not qualify is dropped, and the young ones are flagged on their own side |
| `WallTracking.WallCountBound` | services/analytics/engines/book_analytics.py:148-184 | threshold times the number of walls found on a side is at most the number of levels with positive quantity |
| `WallTracking.IsWallExactly` | services/analytics/engines/book_analytics.py:148-172 | a wall has a positive quantity, at least the minimal notional at the current price, and at least threshold times the mean positive quantity |
| `WallTracking.PositiveQtysExactly` | services/analytics/engines/book_analytics.py:148-158 | the mean is over exactly the positive quantities |
| `WallTracking.SampledExactly` | services/analytics/engines/book_analytics.py:118-119 | only the first levels of each side count, up to the depth |
| `WallTracking.UpdateTracksQualifyingKeys` | services/analytics/engines/book_analytics.py:110-136 | after an update exactly the keys that qualify in it are tracked; earlier ones keep their first sighting |
| `WallTracking.FlaggedExactly` | services/analytics/engines/book_analytics.py:121-133 | an update flags exactly the walls tracked before that no longer qualify and are younger than the limit |
| `WallTracking.AlertIsExact` | services/analytics/engines/book_analytics.py:121-135 | the alert is raised if and only if some wall tracked before vanished in this update younger than the limit |
| `WallTracking.StandingWallsExactly` | services/analytics/engines/book_analytics.py:160-185 | the unflagged records of a side are those of its walls, with this update's quantity and time and the first sighting |
| `WallTracking.FlaggedWallsExactly` | services/analytics/engines/book_analytics.py:122-133 | the flagged records of a side are the last ones of its walls that vanished young, counted as gone once |
| `WallTracking.WallsComeFirst` | services/analytics/engines/book_analytics.py:160-185 | the walls are listed once each, in the order of their levels |
| `WallTracking.FlaggedComeLast` | services/analytics/engines/book_analytics.py:129-133 | after them come the flagged records, one per vanished wall |
| `WallTracking.TrackedRecordExactly` | services/analytics/engines/book_analytics.py:174-183 | a wall is tracked with the quantity and time of this update |
| `WallTracking.YoungExactly` | services/analytics/engines/book_analytics.py:125-126 | young means less than the age limit in seconds since the first sighting |
| `WallTracking.OnlyUntradedWallsAreFlaggedExactly` | services/analytics/engines/book_analytics.py:92-94 | no flagged wall was traded through if and only if no wall that vanishes young is at a level the price has passed |
| `WallTracking.TradedThroughWallRaisesTheAlert` | services/analytics/engines/book_analytics.py:121-135 | with the default settings, a wall that vanishes as the price falls through it raises the alert |
| `WallTracking.StreakStart` | services/analytics/engines/book_analytics.py:174-183 | the start of the present streak: every update since is one in which the key qualifies, and the one before is not |
| `WallTracking.TrackedWallsOfARun` | services/analytics/engines/book_analytics.py:110-184 | over any run the tracked keys are those of the latest update, each first seen at the start of its streak, and none is flagged |
| `WallTracking.AlertOfARun` | services/analytics/engines/book_analytics.py:121-136 | the alert in terms of the inputs alone: some streak ends in this update younger than the limit |
| `Liquidations.BucketsPartitionRecords` | services/analytics/engines/liquidations.py:68-71 | bucket i holds exactly the records of index i in their order, and no bucket is empty |
| `Liquidations.RecentExactly` | services/analytics/engines/liquidations.py:60-61 | the recent records are exactly those at or after the cutoff |
| `Liquidations.RecentConcat` | services/analytics/engines/liquidations.py:60-61 | in their order |
| `Liquidations.TruncateExactly` | services/analytics/engines/liquidations.py:70 | int() drops the fraction, downwards for positive and upwards for negative numbers |
| `Liquidations.ClusterFields` | services/analytics/engines/liquidations.py:77-90 | each field of a cluster; sold positions count as long, bought ones as short |
| `Liquidations.SumsAppend` | services/analytics/engines/liquidations.py:79-87 | a record adds its quantity and notional to the totals and to its own side only |
| `Liquidations.LiquidationClusterDetector.Window` | services/analytics/engines/liquidations.py:60-61 | the records of the last window seconds |
| `Liquidations.OwnIntervalExactly` | services/analytics/engines/liquidations.py:70-78 | a price lies in the half-open interval its cluster reports if and only if it is not negative or a whole number of sizes; a non-negative price in no other |
| `Liquidations.OneIntervalPerPrice` | services/analytics/engines/liquidations.py:77-78 | the intervals are disjoint |
| `Liquidations.NegativePriceIsMisplaced` | services/analytics/engines/liquidations.py:70 | price -0.5 goes into the bucket from 0 to 1 |
| `Liquidations.BucketingConservesUsd` | services/analytics/engines/liquidations.py:68-71 | the notional of all buckets is that of all records |
| `Liquidations.ClusterTotals` | services/analytics/engines/liquidations.py:73-91 | clusters never report more than the whole notional and exactly it with a minimum of one record, in order of notional |
| `Liquidations.ReportedClusters` | services/analytics/engines/liquidations.py:73-91 | a cluster is reported if and only if it sums a bucket with enough records |
| `Liquidations.ClustersMatchTotals` | services/analytics/engines/liquidations.py:93-99 | with a minimum of one and only buys and sells, the clusters add up to long plus short notional, largest first |
| `Liquidations.LiquidationClusterDetector.OnLiquidation` | services/analytics/engines/liquidations.py:46-55 | keeps the last 500 records |
| `Liquidations.LiquidationClusterDetector.ComputeClusters` | services/analytics/engines/liquidations.py:57-91 | the loops produce the sorted clusters of the recent records; none for a price or bucket size that is not positive |
| `Liquidations.LiquidationClusterDetector.ComputeClusterTotals` | services/analytics/engines/liquidations.py:93-99 | the notional of recent sells and buys, together all of it if there are no other sides |
| `OAuth.Store.StoreAuthCode` | services/mcp_server/oauth/store.py:39-58 | stores a code until its lifetime is over and touches no token |
| `OAuth.Store.ConsumeAuthCode` | services/mcp_server/oauth/store.py:61-71 | returns the data exactly if the code is live, and removes the code in any case |
| `OAuth.Store.StoreBearerToken` | services/mcp_server/oauth/store.py:74-91 | stores a token with its creation and expiry times and touches no code |
| `OAuth.Store.LookupBearerToken` | services/mcp_server/oauth/store.py:94-99 | returns the data exactly while the token is live |
| `OAuth.Handlers.Authorize` | services/mcp_server/oauth/handlers.py:63-121 | stores a code exactly if the request is well formed, the client allowed and a user logged in: the one the session cookie names, or in demo mode without a session the named or demo user; otherwise the error of the first failing test; one step of the protocol |
| `OAuth.Handlers.Token` | services/mcp_server/oauth/handlers.py:125-166 | grants exactly if the code is live, the verifier matches and a redirect URI, if sent, agrees; uses the code up in every well-formed attempt; two steps of the protocol |
| `OAuth.NextKeepsExclusive` | services/mcp_server/oauth/store.py:61-71 | every step keeps each code in the storage or with one handler, with a proven verifier, and no two handlers share a code or a token |
| `OAuth.NextKeepsBacked` | services/mcp_server/oauth/handlers.py:152-160 | every step keeps every stored token traceable to the exchange that stored it |
| `OAuth.Invariants` | services/mcp_server/oauth/handlers.py:63-166 | both invariants hold in every interleaving of authorize, token and expiry steps |
| `OAuth.CodesAreSingleUse` | services/mcp_server/oauth/store.py:61-71 | in every interleaving a code is exchanged by at most one handler (section 4.1.2 of RFC 6749) |
| `OAuth.TokensAreBacked` | services/mcp_server/oauth/handlers.py:141-160 | every stored token carries the user and client stored with a code that was taken in time and whose challenge matches the presented verifier (section 4.6 of RFC 7636) |
| `OAuth.TokenUsersLoggedIn` | services/mcp_server/oauth/handlers.py:45-60 | in every interleaving each stored token belongs to a user that logged in for its code, and with demo mode off to one a session cookie named |
| `OAuth.VerdictExactly` | services/mcp_server/oauth/handlers.py:141-150 | the answer to a well-formed token request: unknown code, failed comparison, failed PKCE, redirect mismatch, or none of them |
| `OAuth.SpentCodesStaySpent` | services/mcp_server/oauth/store.py:61-71 | a code that was taken or has expired can never be read again |
| `OAuth.AttemptedCodesStaySpent` | services/mcp_server/oauth/handlers.py:141-150 | any well-formed attempt on a code, successful or not, is the last that can read it |
| `OAuth.GrantsMeetSection413Exactly` | services/mcp_server/oauth/handlers.py:141-150 | in every reachable state a granted request meets section 4.1.3 of RFC 6749 if and only if it names a redirect URI and the client the code was issued to; the verdict stays favourable without the URI and for any client |
| `OAuth.GrantOutsideSection413` | services/mcp_server/oauth/handlers.py:141-150 | a possible run after which a request from another client and without redirect URI is granted a token |

## Left out

- Numbers: IEEE and decimal rounding, the quantizing of quote quantities, column widths and numeric precision of the tables. Values are exact reals.
- Parsing: JSON, numerals and malformed or empty messages; every input is the parsed value. Book prices stay texts, with Python's `float` as a parameter.
- Published events, incidents, acknowledgements and log lines, and the text and data stored with status events (error texts, metadata, update timestamps).
- Failing storage: calls succeed, except that inserts fail on a violated unique constraint and an order insert on a job id without a row. The branches of the consumer that swallow other storage errors are not modelled, and accounts exist.
- Account ids are UUID texts. For any other account id the inserts raise, and the consumer stores nothing.
- The consumer without a repository. The reconciler without one is modelled.
- Primary keys of orders and fills: rows are found by their unique client order id. Job ids are kept, because a second delivery writes under an id that has no row.
- Interleaving of consumer and reconciler within one job: status writes are not guarded in the repository, so deliveries and updates are taken one at a time.
- Time: the clock is a parameter that never runs backwards, read once per gate evaluation.
- Exchange and paper adapters, price resolution, account context and the seven structural check functions: adapter response and check results are inputs.
- Setting and clearing switches: arbitrary actions of a run. The explicit clearing of a cooldown is modelled but is not an action of a run, since the separation in time does not survive it.
- Key texts: Redis keys are datatype values, so collisions of their string forms are not considered.
- SHA-256, HMAC and code generation: the digest is an uninterpreted function, and generated codes and tokens are fresh.
- Discovery, login page, session cookie and the printed redirect URL; the creation time stored with an authorization code.
- Indicators.IndicatorEngine.Compute: does not report the Bollinger bands, a mean and a square root over the last 20 closes that no other value depends on.
- Tape speed, large-trade statistics, spread and imbalance: one expression each.
- The trade intent the crossover strategy builds, its parameters and its explanation.
- Slices with a window of zero, which Python reads as the whole list: windows are at least one.
- Aliasing of wall records: the detector's dict and its results share mutable objects in the source; here they are values. Levels that do not parse are taken out beforehand.
- Snapshots, symbols and event envelopes of the order book handlers, and the 30-second lifetime of the stored book.
- Strategy lifecycle, approval levels, symbol policies and the remaining services: small tables or input and output.
