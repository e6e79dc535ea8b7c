# PAPER trading core: model and proofs

This project models, in Dafny 4.11, how the PAPER core of the two-venue trading system
reserves funds, turns orders into durable facts, simulates fills against live order books and
judges the double-leg execution; and it proves what that core promises across its modules.
`dafny verify dfyconfig.toml` checks everything.

Code that updates things step by step appears as classes and methods (order and execution
cores, the local book, the generator, the paper tables, the matching and validation loops, the
run itself). Each such method is proved equal to a function of its inputs and old state, and
the promises are lemmas about those functions: what each operation computes is stated once more
in other terms (plain arithmetic, the log, the sum of the stored reservations), so that the
function itself is not the last word. What several tasks do at once (reservation
transactions, pooled writer sessions, the simulation worker) appears as state machines over
single steps, and the lemmas speak about every run.

| files | part of the system |
|---|---|
| `Market`, `LocalBook`, `Instrument`, `Scan`, `ScanMeaning` | snapshots, sweeps, the live book, the scanner and what its report means |
| `SimulateLeg`, `LegMeaning`, `LegVersusScan`, `SimRng`, `Engine` | simulated fills, what they mean, the generator, the latest-wins worker |
| `OrderModel`, `OrderCore`, `OrderHistory`, `OrderAnswers`, `OrderDelivery` | order facts: tables, methods, every run, what calls record and when, trade delivery |
| `Execution` | double-leg execution facts |
| `Text`, `Domains` | identifiers, advisory-lock names, single-writer domains |
| `PaperRequest`, `PaperStore`, `PaperCore`, `PaperAnswers`, `PaperHistory` | reservation requests, tables, methods, when calls succeed and what they change, serial histories |
| `Reservations`, `Progress` | reservations as interleaved transactions: serialisability, no deadlock |
| `ReservedPlan`, `RunPreparation`, `SimulatedOrders`, `RunTrading`, `SimulationRun`, `RunMeaning` | one simulated run across the three cores |
| `RunWitness` | concrete runs that show two of the findings below |
| `Common`, `Sorting` | shared vocabulary, stable sorting |

## Conventions

- Decimals are `real`. Where a digest compares serialised decimals, an amount carries its scale
  beside its value (`Common.Amount`), since `1.0` and `1.00` are equal and serialise differently.
- 64-bit words are naturals with the wrap-around written out (`% 2^64`); columns that hold
  signed 64-bit integers refuse larger numbers explicitly.
- Tables are maps and sequences, a transaction is all or nothing, and unique indexes and column
  checks are those of `crates/core/migrations/`.
- SHA-256 digests are compared by what they digest; an advisory key stands for its lock name.
- `Times` and `Over` name real products and quotients so that proofs about structure can hide them.

## What the proofs found

- A simulated sell can fill at an average price of zero, because rounding down to the tick leaves
  nothing of a bid that is worth less than one tick after the adverse move. Booking the trade then
  fails validation, after the plan, the submissions and the other leg's trade have been committed.
  `SimulateLeg.AveragePriceVanishes` gives the condition for a leg, `RunTrading.TradeFailsExactlyWhen`
  for a run after its reservation, and `RunWitness.VanishingRun` a scan, filters and a configuration
  that get there. The reservation refuses a sell limit that itself rounds to nothing
  (`RunPreparation.RunRequestIsValid`), so the price can only vanish at a bid strictly below the
  scanned worst price (`RunTrading.VanishingNeedsDeeperBid`).
- A leg whose take stays below the minimum reports no fill but keeps the money of that take, and the
  run's net profit counts it although nothing is booked. `LegMeaning.UnfilledMoneyExactlyWhen` says
  when a leg does so, `RunMeaning.ReportBalances` how the profit is made up.
- The quote funds reserved for a buy can be less than its quantity at its limit price: the limit is
  rounded up to a tick, the funds only at the eighth decimal. `RunMeaning.ReserveCoversLimitExactlyWhen`
  gives the condition, `RunMeaning.LimitMayExceedReserve` an input.
- A submission configured to time out with certainty (10000 basis points) still may not: the draw is
  reduced to 0 to 10000 inclusive and has to lie below the probability (`RunMeaning.RollMeans`).
- A run whose configured seed is at least 2^63 always fails, at the latest when its report is
  persisted after it has traded (`SimulationRun.LargeSeedFails`); configuration validation admits
  such seeds.
- A writer outlives its lock. The domain lock is held by a session that is never used for queries,
  so a writer whose lock session has ended goes on committing, and another writer can take the
  domain beside it. `Domains.SharedExactlyAfterLoss` shows that this, and nothing else, admits a
  second writer; `Domains.LostSessionAdmitsSecondWriter` is a run in which it happens.
- The replay branch of a run (`crates/core/src/simulation.rs:900-920`) is out of reach for a run that
  is alone on its tables: the funds a bound request holds make one of its two balance updates
  fail first (`PaperHistory.ReplayNeverFollowsFunding`). Run identities are a millisecond and a
  process id, so two runs can carry one; the branch is taken exactly when the other one reserves
  between this one's funding and its reservation (`Reservations.ReplayExactlyAfterConcurrentTwin`,
  `RunWitness.TwinRunIsReplayed`).
- The order core's transitions do not look at the held domain. A call changes the tables and still
  reports an error exactly when it works on another domain's intent or records a reused trade
  (`OrderHistory.CommitsAndRefusesExactlyWhen`, `OrderHistory.ForeignCallCommits`).
- The conflict set by a reused trade is forgotten at the next new trade, which leaves the order
  matched exactly when its fill is within the order; over-fill is not forgotten
  (`OrderHistory.NewTradeResolvesConflict`, `OrderHistory.ReusedTradeIsForgotten`).
- `compensation_spent` includes the estimated cost of the evaluation that escalates, so it may
  exceed the budget in manual escalation (`Execution.EscalationMayOverspend`) and only there
  (`Execution.EveryRunStaysWithinLimits`).
- Nothing in the repository closes a plan or releases a reservation, so a domain reserves at
  most one plan ever (`PaperHistory.EveryHistoryIsSound`).

## Model

| member | source | states |
|---|---|---|
| Market.ValidateAcceptsExactlyGoodBooks | crates/core/src/market.rs:39-53 | validation, which compares neighbours and the two best prices, accepts exactly the books whose sides are populated, positive and strictly best-first and in which every bid is below every ask |
| Market.SweepBook | crates/core/src/market.rs:55-88 | the consuming loop returns the sweep that the other rows are about, errors included |
| Market.SweepIsOptimal | crates/core/src/market.rs:55-88 | the sweep succeeds exactly when total depth covers the positive target, and its quote is the cheapest (asks) or dearest (bids) among all allocations within level quantities that sum to the target |
| Market.VwapBetweenBestAndWorst | crates/core/src/market.rs:62-88 | a sweep ends inside one level, whose price is the worst it reports: the levels before it do not reach the target, with it they do; the quote is those levels in full and the rest at that price; the average price times the target is the quote and lies between the first price and that one |
| LocalBook.ApplySide | crates/core/src/local_book.rs:235-247 | the updating loop leaves the fold of the batch up to the first invalid update, and says whether there was one |
| LocalBook.LastWriteWins | crates/core/src/local_book.rs:235-247 | after a batch each price stands at its last update, absent when that was zero, and otherwise as before |
| LocalBook.BatchesSplitAndRepeat | crates/core/src/local_book.rs:235-247 | splitting a batch anywhere gives the same side, and applying it again changes nothing |
| LocalBook.LocalOrderBook.FromSnapshot | crates/core/src/local_book.rs:142-161 | building succeeds exactly for valid snapshots, and every snapshot of at least that depth gives the original back |
| LocalBook.LocalOrderBook.Apply | crates/core/src/local_book.rs:167-188 | both sides, the sequence and the time stamps after success and after each kind of failure, which leaves the book partly updated |
| LocalBook.LocalOrderBook.ValidateLive | crates/core/src/local_book.rs:190-204 | looking only at the two best prices gives the live verdict |
| LocalBook.LocalOrderBook.Snapshot | crates/core/src/local_book.rs:206-232 | listing, cutting and validating gives the snapshot of a depth or its error |
| LocalBook.LocalOrderBook.LiveIsFullValidation | crates/core/src/local_book.rs:190-232 | the live check gives the verdict and the error of full snapshot validation at every depth from one |
| LocalBook.LocalOrderBook.LiveMeansUncrossed | crates/core/src/local_book.rs:190-204 | the live check passes exactly when both sides hold a price and every bid is below every ask |
| LocalBook.LocalOrderBook.SnapshotsAreNested | crates/core/src/local_book.rs:206-232 | snapshots of all depths succeed together, and a shallower one is a prefix of a deeper one |
| LocalBook.LocalOrderBook.SnapshotShowsBest | crates/core/src/local_book.rs:206-232 | a snapshot is refused exactly for depth zero or a book that is not live; else each side shows as many levels as asked for or as there are, at their standing quantities, best first, and every price left out is worse than all shown |
| LocalBook.LocalOrderBook.FullSnapshotRestores | crates/core/src/local_book.rs:142-232 | rebuilding from a full-depth snapshot restores both sides, the sequence and the time stamps |
| SimulateLeg.OffsetIsNearestAdverseTick | crates/core/src/simulation.rs:82-102 | the offset price is the least tick multiple not below (buy) or the greatest not above (sell) the adversely moved price |
| SimulateLeg.SimulateLeg | crates/core/src/simulation.rs:128-192 | the matching loop and the flags after it give exactly the leg result that the next row characterises |
| LegMeaning.LegMeans | crates/core/src/simulation.rs:82-192 | a leg refuses exactly a non-positive request; else each level offers the greatest step multiple not above its quantity less the competitors' share, moved to the nearest adverse tick; offers are used up in order until the lesser of request and total is taken; fill, money, average, last prices and both flags are those of that take, the fill being dropped below the minimum |
| LegMeaning.UnfilledMoneyExactlyWhen | crates/core/src/simulation.rs:172-192 | a leg without a fill reports money exactly when its take was below the minimum and, for a sell, its first reachable level is worth a tick after the move |
| SimulateLeg.LegNeverBeatsSweep | crates/core/src/simulation.rs:138-192 | an unflagged buy pays at least, a sell receives at most, the sweep's quote for the filled quantity |
| SimulateLeg.FillShrinksWithCompetition | crates/core/src/simulation.rs:138-160 | raising the competitors' share never raises the fill |
| SimulateLeg.FillStaysOnGrid | crates/core/src/simulation.rs:150-176 | a request on the step grid fills on the step grid |
| SimulateLeg.LastPricesAreLastConsumed | crates/core/src/simulation.rs:152-171 | the reported last raw and fill prices are those of the last level consumed |
| SimulateLeg.AveragePriceVanishes | crates/core/src/simulation.rs:177-181 | a filled leg's average price is positive unless it sells and its first reachable level is below one tick after the adverse move, and then it is not |
| Scan.DirectionBounds | crates/core/src/scan.rs:162-228 | gross profit is at most the best-price spread times the quantity, and every charge only lowers it down to admission |
| Instrument.NoRejectionExactlyWithinFilters | crates/core/src/instrument.rs:109-153 | an order draws no rejection exactly when quantity and notional are within the venue's limits and the quantity is a multiple of the step |
| Scan.AcceptedExactlyWhen | crates/core/src/scan.rs:116-249 | an opportunity is accepted exactly when the pair is fresh, nothing bars admission, both orders fit their venue's filters at their own notional and both thresholds are met by the amounts of the next row; it names the venues it was swept from |
| ScanMeaning.ScannedMoney | crates/core/src/scan.rs:126-228 | in each direction cost and proceeds are the optimal quotes of the quantity, averages and worst prices go with them, fees are each side's money at the rate of its own venue, latency loss and risk buffer are their shares of the cost, the net basis points their share of the admission profit, and proceeds after the sell fee less cost with the buy fee are the expected net profit and the charges before it |
| ScanMeaning.ListsExactlyTheReasons | crates/core/src/scan.rs:112-249 | an opportunity lists exactly the reasons that apply to it: staleness, skew, admission, each venue filter by venue, and both thresholds; it is accepted when it lists none |
| ScanMeaning.ScansExactlyWhen | crates/core/src/scan.rs:92-160 | a scan succeeds exactly when symbols and venues agree, both books are good, the quantity is positive and all four sides hold it; the two mismatches are reported first |
| ScanMeaning.ReportRepeatsInput | crates/core/src/scan.rs:112-159 | the report repeats symbol, quantity and time, and its skew is the distance of the receive times |
| Scan.DirectionsExcludeEachOther | crates/core/src/scan.rs:92-228 | the two gross profits of one scan sum to less than zero, so at most one direction is ever accepted, and one that is sells at or above where it buys |
| LegVersusScan.MatchedLegsNeverBeatScan | crates/core/src/simulation.rs:1090-1091 | legs that fill the same positive quantity net at most what the scanner would compute after fees for that quantity |
| LegVersusScan.FullFillsNeverBeatOpportunity | crates/core/src/scan.rs:168-182 | fully filled legs net at most the scanned opportunity's gross profit less its fees |
| SimRng.SimRng.NextU64 | crates/core/src/simulation.rs:63-69 | the n-th call returns the n-th draw of the seed as a 64-bit word |
| SimRng.SimRng.GenRangeU64 | crates/core/src/simulation.rs:72-77 | sampling stays within any closed interval of words, the full range included |
| SimRng.UnmixUndoesMix | crates/core/src/simulation.rs:65-68 | the xor-shift and multiply mixer has a left inverse on words |
| SimRng.MixUndoesUnmix | crates/core/src/simulation.rs:65-68 | and the same inverse on the right, so it is a bijection |
| SimRng.DrawsAreDistinct | crates/core/src/simulation.rs:56-69 | any 2^64 consecutive draws are pairwise distinct |
| SimRng.EveryWordIsDrawn | crates/core/src/simulation.rs:56-69 | every word is drawn within any 2^64 consecutive draws, at a given index |
| SimRng.EveryValueIsSampled | crates/core/src/simulation.rs:72-77 | range sampling reaches every value of the interval in every period |
| SimRng.BitsAreBitwise | crates/core/src/simulation.rs:65-68 | the exclusive or and the shift of the mixer act on each bit as the machine's do |
| SimRng.DrawMixesAdvancedSeed | crates/core/src/simulation.rs:56-69 | draw n mixes the seed advanced by n + 2 increments, the first added when the generator is made |
| Engine.EveryInterleavingIsAccounted | crates/core/src/simulation.rs:1166-1211 | in every interleaving of offers, worker steps, stop and abort: stored events are taken, overwritten or in the slot; overwrites equal the counter plus all counts handed to runs; taken events follow the offers' order, each the latest at its take; a parked worker facing a full slot has a wake-up |
| Engine.FullSlotIsTaken | crates/core/src/simulation.rs:1166-1182 | from any reachable state with a full slot and no offer in progress, a running engine takes the latest event within four of its worker's steps |
| Engine.OffersAreStored | crates/core/src/simulation.rs:1204-1211 | in every interleaving the events stored, with the one in hand, are exactly those offered, in the order of the offers |
| Engine.StoppedWorkerExits | crates/core/src/simulation.rs:1160-1218 | after a stop with its wake-up and no offer in progress the worker exits within four of its steps, starting another run only if it was already at the slot or had an event |
| Text.ValidIdMeans | crates/core/src/db.rs:235-240 | an identifier is valid exactly when it is non-empty, neither begins nor ends in white space, and holds no NUL |
| Text.LockNamesInjective | crates/core/src/db.rs:244-251 | lock names of valid domains, requests and balances are distinct for distinct targets, across all three namespaces |
| Domains.SingleWriterPerDomain | crates/core/src/db.rs:300-352 | in every run of sessions and writers, of two live writers on one account and instrument, whichever cores they belong to, at least one has lost its lock session; a lock is held only by the session of a live writer, or of one dropped unlocked and not yet released, and only for its own domain |
| Domains.SharedExactlyAfterLoss | crates/core/src/db.rs:286-343 | after every run, a domain can come to have two live writers without any further loss of a session if and only if one of its live writers has already lost its lock session |
| Domains.LostSessionAdmitsSecondWriter | crates/core/src/db.rs:288-343 | a run of five steps after which two live writers share a domain, the first having lost its lock session |
| Domains.RefusalMeansSameDomain | crates/core/src/db.rs:81-92 | an acquisition succeeds exactly when its own session is alive and no session holds this very domain for a live writer or for one dropped unlocked: distinct domains never block each other |
| OrderCore.OrderCore.EnsureIntent | crates/core/src/order.rs:159-174 | materialises the row of a reserved intent of the held domain, and leaves an existing row alone |
| OrderCore.OrderCore.StartSubmission | crates/core/src/order.rs:176-218 | the whole new tables and answer, for every guard |
| OrderCore.OrderCore.FinishSubmission | crates/core/src/order.rs:220-287 | the whole new tables and answer, for all three results; what each result decides is `OrderAnswers.ResultDecidesSubmission` |
| OrderCore.OrderCore.RecordQuery | crates/core/src/order.rs:289-366 | the whole new tables and answer, for both lookup results |
| OrderCore.OrderCore.AskCancel | crates/core/src/order.rs:368-411 | the whole new tables and answer |
| OrderCore.OrderCore.FinishCancellation | crates/core/src/order.rs:413-462 | the whole new tables and answer |
| OrderCore.OrderCore.BookTrade | crates/core/src/order.rs:464-588 | the whole new tables and answer for a new, repeated and conflicting trade, the last committed and then refused |
| OrderHistory.EveryRunRebuildsItsRows | crates/core/src/order.rs:176-626 | in every run by any number of cores: the log is numbered without gaps, holds one submission start, one acceptance at most and before any cancel or trade; folding it rebuilds the row; an exchange id is present exactly when accepted; the filled quantity is the sum of the stored trades; over-fill means conflict |
| OrderHistory.RunsOnlyGrow | crates/core/src/order.rs:176-588 | what follows any moment of a run only extends logs, trades and queries, keeps accepted identities, and leaves rejected intents alone |
| OrderHistory.CommitsAndRefusesExactlyWhen | crates/core/src/order.rs:176-594 | a call changes the tables and reports an error exactly when its guards accept and it records a reused trade or works on another domain's intent |
| OrderHistory.ForeignCallCommits | crates/core/src/order.rs:176-218 | a run in which another domain's core starts a submission, is told that it is outside its domain, and has started it |
| OrderHistory.NewTradeResolvesConflict | crates/core/src/order.rs:541-588 | whatever the reconciliation was, a new trade leaves it matched exactly when the new fill is within the order, and in conflict otherwise |
| OrderHistory.ReusedTradeIsForgotten | crates/core/src/order.rs:494-588 | a reused trade commits its conflict, is refused and counts nothing, and the next new trade decides as if it had not come |
| OrderAnswers.CallRecordsItsCommand | crates/core/src/order.rs:176-626 | every call leaves the tables alone or appends one entry that stands for its own command, storing exactly its trade or query id and touching no other intent |
| OrderAnswers.CommandsTouchTheirOwn | crates/core/src/order.rs:176-588 | identity never changes; only trades touch fill and reconciliation, only cancels the cancel status, only starts, results and successful queries the submission; a new, repeated and conflicting trade each do what they should |
| OrderAnswers.AnsweredExactlyWhen | crates/core/src/order.rs:176-626 | in every reachable state a command is recorded exactly when the log and the other tables allow it (a start on an empty log, a result after the start alone, a query after an unknown result, a cancel by the last cancel entry, a trade of the accepted identity), and answered with the new row exactly when moreover it is no reused trade and the domain is the core's |
| OrderAnswers.EveryRunFollowsLifecycle | crates/core/src/order.rs:176-462 | in every run status, last error, exchange id and cancel status are told by the log: the one result after the start, the fruitless queries after an unknown one, the acceptance by result or query, the last cancel entry |
| OrderAnswers.EnsureMaterialises | crates/core/src/order.rs:159-174 | a row is made once, by the core of the intent's domain, with the intent's venue and quantity and no history |
| OrderAnswers.ResultDecidesSubmission | crates/core/src/order.rs:237-287 | a reported result leaves the order accepted under its id without an error, rejected with its reason, or unknown with its reason |
| OrderAnswers.RejectionIsFinal | crates/core/src/order.rs:247-255 | after a definite rejection, whatever calls follow by any core, row and log stay and every further call on the intent changes nothing and is refused |
| OrderAnswers.TimeoutLeavesQueryable | crates/core/src/order.rs:289-366 | after an unknown result every fresh valid query is accepted: a fruitless one changes only the version, one that finds a free id accepts the order under it and keeps the reason |
| OrderAnswers.ConfirmedCancelIsFinal | crates/core/src/order.rs:368-588 | after a confirmed cancel, whatever follows, it stays confirmed, further cancels and cancel results are refused, and a new trade of the order is still booked |
| OrderDelivery.DeliveryIsDetermined | crates/core/src/order.rs:413-588 | after any delivery of conflict-free trades and cancel steps, the stored trades are the old ones and the bookable delivered ones, and the cancel status is that of the cancel steps alone |
| OrderDelivery.DeliveryOrderIsIrrelevant | crates/core/src/order.rs:464-588 | two deliveries of the same trades in any order, with any repetition and interleaving, end with the same filled quantity, reconciliation, cancel status and identity |
| Execution.ExecutionCore.InitializePlan | crates/core/src/execution.rs:104-159 | inserts once, never touches an existing row, and refuses other limits |
| Execution.ExecutionCore.Evaluate | crates/core/src/execution.rs:161-292 | the new row, the appended event and the answer, or why nothing changed; which of them, in every run, is `Execution.EvaluationMeans` |
| Execution.EvaluationMeans | crates/core/src/execution.rs:191-270 | in every state of every run an evaluation with good values is refused exactly when a limit is already broken, the legs matched before, or a fill falls; else row and event hold the fills, their gap, its exposure and cost, the cost is added to the spending, and the decision is to escalate exactly when the new row breaks a limit and to compensate exactly when it does not and the legs differ |
| Execution.EvaluationKeepsConsistent | crates/core/src/execution.rs:191-270 | an evaluation of a consistent row and log leaves them consistent: limits hold outside escalation and the log rebuilds the row |
| Execution.EveryRunStaysWithinLimits | crates/core/src/execution.rs:104-292 | in every run of evaluations and re-initialisations: compensation decisions, then at most one terminal event; fills never fall; spending is the sum of the costs; the plan is escalated if and only if budget, exposure or target is broken, and completed if and only if it was evaluated, none is broken and the legs match; terminal rows never change |
| Execution.EscalationMayOverspend | crates/core/src/execution.rs:217-275 | a plan whose first evaluation escalates and leaves more spent than its budget |
| PaperRequest.ValidateRequest | crates/core/src/paper.rs:465-562 | the checks with their growing sets accept exactly the requests that meet the declarative conditions, and a refusal names a fault the request has |
| PaperRequest.ValidRequestMeans | crates/core/src/paper.rs:465-562 | those conditions in terms of sets: good names, positive amounts, one intent of each side, no shared intent identifier or venue, no repeated line identifier or balance, and lines on exactly the intents' venues |
| PaperRequest.CanonicalForgetsOrder | crates/core/src/paper.rs:564-572 | the canonical forms of two valid requests are equal exactly when they differ at most in the order of intents and reservations |
| Sorting.SortIsCanonical | crates/core/src/paper.rs:566-569 | two lists with distinct keys sort to the same list exactly when they are permutations |
| PaperCore.SetPaperBalance | crates/core/src/paper.rs:137-200 | the whole new tables and answer, for every guard |
| PaperCore.PaperCore.LockAndCheckBalances | crates/core/src/paper.rs:578-621 | the loop over the sorted lines reports the first line whose balance is missing or insufficient; the row on `PaperAnswers.ReservesExactlyWhen` says when none is |
| PaperCore.PaperCore.InsertPlan | crates/core/src/paper.rs:623-716 | the staged rows are the whole plan with its approval, lines, intents and audit event, or nothing when any unique index refuses |
| PaperCore.PaperCore.ReservePlan | crates/core/src/paper.rs:213-265 | replayed, refused without effect, or committed whole: the new tables, the answer, and the loaded plan when there is one |
| PaperStore.OneLinePerBalance | crates/core/src/paper.rs:547-551 | with unique venue and asset keys a balance is debited by at most one line, so per-line checks suffice |
| PaperStore.ServeKeepsSound | crates/core/src/paper.rs:623-716 | every call keeps each balance's reserved part equal to the sum of its reservations and within its bounds, every plan's rows equal to its request, and one approval and one event of the same content per plan |
| PaperStore.RecordsFollowPlans | crates/core/src/paper.rs:648-714 | for a plan id that is fresh, the approval and the audit event can never be refused |
| PaperAnswers.ReservesExactlyWhen | crates/core/src/paper.rs:213-265 | in sound tables a reservation succeeds if and only if its request is valid, the clock is in range, its id is unbound, for every line the amount and everything reserved on its balance are free, and its request collides with no plan's; every other answer has its own condition, and a missing or insufficient balance is that of the first uncovered line by venue and asset |
| PaperAnswers.ConflictsExactlyWhenColliding | crates/core/src/paper.rs:623-716 | the unique indexes refuse a request exactly when it shares the plan id, the request id, the domain, a line id, or an intent, attempt or client order id with the request of a plan |
| PaperAnswers.ReservationDebits | crates/core/src/paper.rs:623-646 | a reservation raises each balance's reserved part by the amount of the one line on it, and changes no other balance or column |
| PaperAnswers.ReservationRecords | crates/core/src/paper.rs:623-716 | a reservation adds the one plan, recovered as requested and stamped with the call's time, and leaves every other plan as it was |
| PaperAnswers.ObservesExactlyWhen | crates/core/src/paper.rs:137-200 | a balance is replaced if and only if the observation is well formed and nothing is reserved on it, and then holds exactly what was observed |
| PaperHistory.EveryHistoryIsSound | crates/core/src/paper.rs:137-265 | so it is in every history of calls, and no two plans share a request or a domain |
| PaperHistory.RetryIsIdempotent | crates/core/src/paper.rs:230-252 | after any history a retry of a reserved request changes nothing, is answered with the original plan exactly when it differs from the original at most in order, and the plan loaded for it has the original's scalars, intents and lines |
| PaperHistory.RequestReservesAtMostOnce | crates/core/src/paper.rs:224-265 | each request id reserves at most once in a history |
| Reservations.ChecksSurvive | crates/core/src/paper.rs:582-621 | a check made under a lock still holds after any commit that does not own that lock |
| Reservations.FailureIsAtomic | crates/core/src/paper.rs:230-260 | a check that fails midway answers as the whole call executed alone at that moment |
| Reservations.CommitIsAtomic | crates/core/src/paper.rs:250-260 | a commit writes what the whole call executed alone at that moment would |
| Reservations.EveryInterleavingIsSerial | crates/core/src/paper.rs:149-260 | in every interleaving of any number of reservation and balance transactions, with any aborts, tables and answers are those of the answered calls executed one at a time in answering order; so balances stay bounded and equal to the sum of their reservations |
| Reservations.ChecksHoldUntilCommit | crates/core/src/paper.rs:578-621 | when a reservation commits, its request id is unbound and every line is still covered by its balance |
| Reservations.RequestReservesAtMostOnceConcurrently | crates/core/src/paper.rs:224-260 | in every interleaving two transactions that reserved carry different request ids |
| Progress.PlanAscends | crates/core/src/paper.rs:582-591 | every call takes its locks in strictly ascending global order: request first, then balances by account, venue and asset |
| Progress.WaitingIsAcyclic | crates/core/src/paper.rs:164-229 | in every interleaving the wait-for relation has no cycle of any length |
| Progress.SomeTransactionCanStep | crates/core/src/paper.rs:164-229 | while any transaction is unfinished, some transaction can take a step |
| Progress.SchedulesAreShort | crates/core/src/paper.rs:213-265 | no schedule of transaction steps is longer than the steps remaining at its start |
| Progress.FinishAll | crates/core/src/paper.rs:213-265 | from every state that keeps the invariant some schedule of steps finishes every transaction without an abort |
| Progress.EveryoneFinishes | crates/core/src/paper.rs:213-265 | from every reachable state, a schedule of steps that cannot be extended has finished every transaction |
| ReservedPlan.FreshReservationIsKnown | crates/core/src/order.rs:163-170 | after a fresh reservation exactly its plan and two intents, unknown before, are visible to the other cores in the writer's domain |
| SimulatedOrders.SubmitAndConfirm | crates/core/src/simulation.rs:310-371 | for a freshly reserved intent no state guard can refuse: the answer, the draws consumed, the row, the log entries and the query ids follow from the seeded rolls, and it fails exactly for a taken identifier or an unstorable deadline |
| RunMeaning.RollMeans | crates/core/src/simulation.rs:323-379 | a timeout or a found lookup happens exactly when the draw modulo 10001 is below the rounded probability: never at zero, and not always at ten thousand |
| SimulatedOrders.FirstTradeIsNew | crates/core/src/order.rs:484-493 | an accepted order without fills has no stored trade, so its first trade is neither duplicate nor conflict |
| SimulatedOrders.BookFill | crates/core/src/simulation.rs:989-1007 | booking a leg's fill fails exactly for a vanished price or an unstorable time, and otherwise leaves the order row with that fill, no conflict, and the one trade of the next row stored |
| RunMeaning.LegTradesMean | crates/core/src/simulation.rs:989-1038 | a confirmed leg with a fill leaves one trade of that quantity whose price times quantity is the leg's money, with the fee at the venue's rate on it; any other leg leaves none |
| RunTrading.LegsOfRun | crates/core/src/simulation.rs:970-971 | both legs succeed on scanned books, stay within the target, and only the sell price can vanish |
| RunPreparation.RunRequestIsValid | crates/core/src/simulation.rs:852-897 | a run's request is valid exactly when its names, venues and assets are, the venues differ, and quantity, both limits and the cost are positive |
| RunMeaning.RunRequestMeans | crates/core/src/simulation.rs:681-897 | one buy and one sell of the whole quantity on their venues; the buy limited to the least tick at or above its moved worst price, the sell to the greatest at or below its own; quote funds of the moved cost rounded up at the eighth decimal; the quantity in base |
| RunMeaning.ReserveCoversLimitExactlyWhen | crates/core/src/simulation.rs:681-696 | the quote funds cover the quantity at the buy limit exactly when that money, rounded up at the eighth decimal, exceeds the moved cost by less than one unit of it |
| RunMeaning.LimitMayExceedReserve | crates/core/src/simulation.rs:681-696 | one unit at 100 moved by one basis point with a tick of one: the limit is 101 and less is reserved |
| RunMeaning.DelaysWithinRange | crates/core/src/simulation.rs:671-680 | both sampled delays lie in their ranges and the fills are dated by their saturating sum with the evaluation time |
| RunPreparation.Prepare | crates/core/src/simulation.rs:776-898 | funding both balances, checking them and reserving leave the tables and end as the next row describes |
| RunPreparation.PreparationMeans | crates/core/src/simulation.rs:776-898 | uninterrupted, a preparation is not funded exactly when a name, amount or clock is bad or funds are reserved there, insufficient exactly when the initial funds are, never a replay, and prepared exactly when the request is then valid, unbound and without conflict; otherwise no plan or intent has changed |
| RunTrading.EvaluateFresh | crates/core/src/simulation.rs:1050-1067 | evaluating a fresh plan with fills within its target is never refused, escalates only for exposure or budget, and reports the mismatch, its exposure and its cost |
| RunTrading.TradeReserved | crates/core/src/simulation.rs:923-1067 | after the reservation every call meets its state guard; it fails exactly when, and with the error that, the refusal of the next row says; confirmations follow the rolls; order rows, stored trades, execution row and legs agree; over-fill never escalates |
| RunTrading.TradeFailsExactlyWhen | crates/core/src/simulation.rs:310-371 | that refusal exists exactly when the store refuses a submission, a fill of a confirmed leg cannot be stored in time, or a confirmed sell fills at a vanished price |
| RunTrading.VanishingNeedsDeeperBid | crates/core/src/simulation.rs:687-692 | after a reservation the price can vanish only when the first bid the leg can reach lies strictly below the scanned worst price |
| RunWitness.VanishingRun | crates/core/src/simulation.rs:970-1038 | an accepted opportunity whose run, first on empty tables, reserves, submits both orders and fails on a sell price of zero |
| SimulationRun.ScenarioMeans | crates/core/src/simulation.rs:1081-1087 | a run is normal exactly when both legs filled the target and competed away exactly when one filled nothing |
| SimulationRun.RunNeverBeatsScan | crates/core/src/simulation.rs:1089-1091 | with both legs accepted and filled, the reported profit is at most the scanned gross profit less fees |
| RunMeaning.ReportBalances | crates/core/src/simulation.rs:1042-1112 | the sell leg's money is the reported profit, the buy leg's money and both fees, each fee at the rate of its leg's venue on a confirmed fill; the gap between the fills is valued at the sell worst price and compensated at the mean worst price with the markup |
| SimulationRun.RunTradesScannedBooks | crates/core/src/simulation.rs:631-652 | a run on an opportunity of its event trades on the very books, filters and fee rates from which the scanner evaluated it |
| PaperHistory.ReplayNeverFollowsFunding | crates/core/src/simulation.rs:776-920 | with nothing in between, a reservation that follows its own two balance updates is never answered as a replay |
| PaperHistory.ReplayExactlyAfterTwin | crates/core/src/simulation.rs:776-920 | in every history a reservation after a balance update of its own is a replay if and only if another call reserved the same request, up to order, in between; and it names that call's plan |
| Reservations.ReplayExactlyAfterConcurrentTwin | crates/core/src/simulation.rs:776-920 | the same for every interleaving of reservation and balance transactions, the other call being another transaction |
| RunWitness.TwinRunIsReplayed | crates/core/src/simulation.rs:628-632 | two runs of one identity that both fund before either reserves: the first reserves, the second is answered with its plan |
| SimulationRun.Projections.Persist | crates/core/src/simulation.rs:443-612 | a report's row is inserted once per run when its numbers and signs fit the columns; a fill time that does not fit fails the call after the row is in place |
| SimulationRun.SignsOfTrading | crates/core/migrations/0005_simulation_runs.sql:4-50 | the sign checks of the projection's decimal columns never fire |
| SimulationRun.LargeSeedFails | crates/core/src/simulation.rs:498-500 | whatever the tables and the input, a configured seed of at least 2^63 makes the run fail |
| SimulationRun.RunSimulation | crates/core/src/simulation.rs:618-1124 | a whole run over sound linked tables keeps them so; it fails exactly for absent books, worthless limits, a refused funding or reservation, a refused trade, or a report that does not fit its row; facts and report agree on fills wherever orders were accepted, persisted or not; the stored trades grow by exactly the booked fills; warnings stand exactly for unbooked fills; a run trades exactly when its initial funds cover its cost and quantity, and one that does not says rejected and leaves no plan, order or execution row |

## Left out

- PaperCore.PaperCore.ReservePlan: a loaded plan's intents and lines come back as collections without the database's sorting order.
- Reservations.EveryInterleavingIsSerial: unique-index conflicts are decided at commit instead of blocking the inserting statement, and row locks are covered by the advisory locks that every writer of a balance takes first.
- Progress.SomeTransactionCanStep: argues over advisory locks only; waiting for a pooled connection or on a unique index is not modelled.
- Domains.SingleWriterPerDomain: the pool's ceiling of sessions, the wait for a free one and its time-out are not modelled; the sessions are those of any number of processes.
- Engine.EveryInterleavingIsAccounted: the 64-bit skip counter is a natural number, atomics are sequentially consistent, and a notification is one stored permit.
- SimulationRun.RunSimulation: runs alone on its tables from one call to the next; interleaving with other writers is the subject of `Reservations` and `Domains`. The balance snapshots written after the report, whose failures the program only logs, and the second reading of the clock for them are not part of this model.
- SimulatedOrders.SubmitAndConfirm: the visibility deadline is an unbounded sum, so an evaluation time within a minute of 2^64 is refused here where the program's addition would overflow.
- Rounding of decimals to 28 digits: products and quotients are exact.
- Collisions of SHA-256 digests and 64-bit advisory keys.
- SQL text, connection handling, schema migration and the adoption of legacy bookkeeping.
- Wall-clock time, process ids and logging: they are parameters or absent.
- Parsing of wire-format levels and updates, feed publishing, venue clients, the archive, and the agent protocol: input and output.
- Instrument static validation and pair validation, beyond the positivity of ticks and steps that the fills need.
- Ledger, reconciliation, control, dashboard, alert, backup and health modules: simple sums or record keeping.
- The desktop commands and the front end: plumbing and display.
- The smoke programs: finite scenarios, covered by the for-all statements.
