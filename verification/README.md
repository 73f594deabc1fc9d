# Prometheus gateway: a model and its proofs

The gateway keeps several small protocols over state that many requests and many worker processes
share in Redis or SQL. This project models them in Dafny and proves what they keep.

* `Budget`, `BudgetRuns`, `AlertRuns`: the monthly spend cap. One client's counters under any
  interleaving of reserves, roll-backs and settles, across months; and its threshold alerts.
* `Breaker`, `BreakerWorkers`, `BreakerClosing`, `BreakerScenarios`, `BreakerEscapes`, `Routing`: the
  distributed circuit breaker. The breaker object against a three-state automaton; any number of
  worker processes sending, executing and answering Redis commands separately, with faults; when a
  circuit closes; particular runs; and the choice of replicas.
* `Idempotency`, `IdempotencyRuns`: idempotency keys, as one call at a time and as interleaved reads,
  deletes and inserts.
* `Stream`, `StreamRuns`, `StreamContent`: a streamed response, two nested generators that may be
  closed at any yield and cancelled at any await.
* `Ledger`, `LedgerRuns`, `Reunify`, `ReunifyTwice`, `LedgerScripts`: usage events beside a rollup with
  NULL-aware sums, prices, the two repair scripts, and both at once.
* `RateLimiter`, `FixedWindow`, `Meter`, `RateLimits`, `RequestLimits`, `LimitOrder`: the counters, what fixed
  windows admit, what read-only gates let through, and the three layers of limits on a request.
* `LoginThrottle`, `Activity`, `ActivityRefusals`: two pruned structures against their full history.

Objects the source updates in place are classes here; each method's contract ties the new state to
a function, and the properties are proved of that function. Concurrent protocols are state machines:
a run is any sequence of steps, a step that is not possible changes nothing, and each Redis command,
each MULTI and each SQL statement or commit is one step. Money and clock readings are `real` where
fractions or rounding matter and integers otherwise. Clocks, prices, upstream lines and database
rows read elsewhere are parameters.

Where the code and its own words differ, the model follows the code:

* The limiter's class comment says sliding window; it is a fixed one (`FixedWindow.TwiceInTwoSeconds`).
* A daily request limit charges a client that is its own user twice (`RequestLimits.ChargedOnceIff`).
* The live view is described as showing what the check compares against. `RequestLimits.Parted` lists
  where it does not: the route's tokens under a tier with `tpm` or for a distinct user, the route's
  images under a tier with `ipm`, and a distinct user's client-wide rows, which the view resolves by
  the user's own tier while the check applies the client's (admin/router.py resolves one per identity).
* The half-open state is meant to end. It does exactly if enough successes read half-open
  (`BreakerClosing.ClosesIffEnoughSuccesses`), and under no configuration need it
  (`BreakerScenarios.StuckIsReachable`).
* `settle` corrects the month it runs in, not the one reserved in
  (`BudgetRuns.MonthsExactIffNothingCrossed`).
* A body stored for replay can be truncated (`StreamContent.TruncatedBodyIsStored`).
* A refusal is shown for as long as its identity is, not for fifteen minutes
  (`ActivityRefusals.RefusalIsLostIffQuiet`).
* Reunifying keeps cost but not the cost's components (`Reunify.ComponentsKeptIffNothingLost`).

## Model

| member | source | states |
|---|---|---|
| Budget.RoundHalfEven | gateway/src/prometheus_gateway/budget.py:36-37 | Python's rounding: never more than half away, and a tie goes to the even neighbour |
| Budget.ParseThresholds | gateway/src/prometheus_gateway/budget.py:44-58 | of the client's setting, or the platform's where it is empty: the numbers float() reads in its comma-separated parts, truncated, each once and in rising order |
| Budget.StrippedIsTheMiddle | gateway/src/prometheus_gateway/budget.py:52-53 | each part is read without the whitespace at its ends, and with all there is between |
| Budget.SplitJoins | gateway/src/prometheus_gateway/budget.py:48-52 | splitting loses nothing but the separators |
| Budget.BudgetTracker.Reserve | gateway/src/prometheus_gateway/budget.py:194-236 | admitted iff there is no cap or the counter with the estimate added is at most a million micro-dollars to the dollar of it; refused leaves every counter where it was; reports exactly the due, unnotified thresholds, in rising order |
| Budget.BudgetTracker.Settle | gateway/src/prometheus_gateway/budget.py:238-262 | moves the counter of the month it is called in by rounded actual less rounded reservation, no other counter, and reports the thresholds that total newly reaches |
| Budget.BudgetTracker.CheckThresholds | gateway/src/prometheus_gateway/budget.py:276-294 | the notified set grows by exactly the reached thresholds, those t for which a hundred times the counter is at least t times the cap in micro-dollars; the call reports those it added, each once, in rising order, whatever order they were given in |
| BudgetRuns.Conserved | gateway/src/prometheus_gateway/budget.py:194-262 | conservation over any interleaving of reserve, roll-back and settle commands: each month's counter is the sum of what its requests put there, roll-backs still pending included, and of nothing else |
| BudgetRuns.CountersTelescope | gateway/src/prometheus_gateway/budget.py:202-262 | summed over all months the counters are the settled actuals plus the reservations neither settled nor rolled back, wherever the boundaries fall; a request that never settles stays in the sum |
| BudgetRuns.MonthsExactIffNothingCrossed | gateway/src/prometheus_gateway/budget.py:247-262 | every month's counter holds what it is meant to hold iff no request with a positive reservation settled in another month than it reserved in |
| BudgetRuns.SettleAcrossMonthsLeavesTheDifference | gateway/src/prometheus_gateway/budget.py:247-256 | reserved in one month and settled in the next, at any estimate and actual, the next month holds their difference, less than nothing whenever the actual was less |
| BudgetRuns.CapHolds | gateway/src/prometheus_gateway/budget.py:202-236 | in every interleaving a month's admitted and settled total, what crossed into it from other months included, exceeds the cap by at most the overruns its settles brought, all in micro-dollars, a million to the dollar |
| BudgetRuns.CapHoldsForUpperBounds | gateway/src/prometheus_gateway/budget.py:202-236 | and never exceeds it when estimates were upper bounds and nothing crossed into the month |
| BudgetRuns.ReserveIsItsCommands | gateway/src/prometheus_gateway/budget.py:202-236 | reserve's two commands with nothing between give the verdict and the counter of BudgetTracker.Reserve |
| BudgetRuns.SettleIsItsCommand | gateway/src/prometheus_gateway/budget.py:238-262 | settle's command puts the actual cost in the place of the reservation, in the month it runs in |
| BudgetRuns.RoundingErrorBounded | gateway/src/prometheus_gateway/budget.py:36-37 | n recorded amounts are off their exact total by at most n half micro-dollars |
| AlertRuns.EachAlertOnce | gateway/src/prometheus_gateway/budget.py:276-294 | however many calls walk their thresholds at once and however the spend falls back, the alerts reported are the notified set, each exactly once |
| AlertRuns.FinishedCallMissesNothing | gateway/src/prometheus_gateway/budget.py:276-294 | a call that has ended leaves every threshold at or below the percentage it saw notified |
| AlertRuns.OpenSeesItsShare | gateway/src/prometheus_gateway/budget.py:276-284 | that percentage being the total's of the cap, a threshold is reached iff a hundred times the one is at least the threshold times the other |
| Breaker.CircuitBreaker.GetState | gateway/src/prometheus_gateway/circuit_breaker.py:116-154 | a cache less than two seconds old answers; otherwise Redis does, field for field, and is cached; or, when Redis does not answer, a closed circuit that never failed, which is not |
| Breaker.CircuitBreaker.AllowRequest | gateway/src/prometheus_gateway/circuit_breaker.py:161-211 | verdict and new state in all three circuit states, the probe lock's grant and refusal included; with Redis away everything goes through but what a cached view less than two seconds old holds back |
| Breaker.CircuitBreaker.RecordSuccess | gateway/src/prometheus_gateway/circuit_breaker.py:213-235 | counts towards closing while half-open, resets the failures while closed, does nothing while open; with Redis away a cached half-open view still counts, and closes nothing |
| Breaker.CircuitBreaker.RecordFailure | gateway/src/prometheus_gateway/circuit_breaker.py:237-267 | counts, and opens a circuit at or over the threshold that is not open, stamping the time and dropping the lock; with Redis away nothing |
| Breaker.CircuitBreaker.CloseCircuit | gateway/src/prometheus_gateway/circuit_breaker.py:269-288 | leaves the state of a breaker that never failed, or the state it found when Redis is away |
| Breaker.CircuitBreaker.UpdateSettings | gateway/src/prometheus_gateway/circuit_breaker.py:84-98 | changes the thresholds and nothing of the circuit: a cached recovery time keeps the old timeout |
| Breaker.StepRefines | gateway/src/prometheus_gateway/circuit_breaker.py:116-283 | each call, from a sound state, answers and moves as the three-state automaton, and leaves cache and Redis in agreement |
| Breaker.OneWorkerIsTheAutomaton | gateway/src/prometheus_gateway/circuit_breaker.py:116-283 | after any calls at any clock readings one worker's breaker is in the automaton's state and its next answer is the automaton's |
| Breaker.OpensExactlyAtTheThreshold | gateway/src/prometheus_gateway/circuit_breaker.py:237-267 | closed throughout iff no streak of failures has reached the threshold; until then the counter is the streak |
| Breaker.HalfOpenFailureReopens | gateway/src/prometheus_gateway/circuit_breaker.py:249-267 | any failure while half-open opens the circuit from now and drops the lock |
| Breaker.ClosesExactlyAtTheThreshold | gateway/src/prometheus_gateway/circuit_breaker.py:223-226 | from a won probe and without a failure, closed iff success_threshold successes have been recorded |
| BreakerWorkers.LogIsHistory | gateway/src/prometheus_gateway/circuit_breaker.py:116-283 | in every run of any number of workers and calls, any number of outcomes to a request, commands lost on the way there or back, Redis is exactly what its executed commands made it, in order |
| BreakerWorkers.OpenAlwaysStamped | gateway/src/prometheus_gateway/circuit_breaker.py:251-264 | open implies opened_at is set, and closed that it is not, before and after every command of every run |
| BreakerWorkers.HalfOpenStampedIffNoStaleWrite | gateway/src/prometheus_gateway/circuit_breaker.py:176-201 | half-open keeps opened_at throughout a run iff no worker wrote half-open over a circuit another had closed |
| BreakerWorkers.ProbesAreSeparated | gateway/src/prometheus_gateway/circuit_breaker.py:184-201 | two workers win the probe lock only with the lock deleted in between or a recovery timeout apart |
| BreakerWorkers.GetStateNearlyCurrent | gateway/src/prometheus_gateway/circuit_breaker.py:121-154 | every state a worker acts on was Redis's own less than 2 s plus that one read's duration ago |
| BreakerWorkers.HalfOpenAdmitsIffLocked | gateway/src/prometheus_gateway/circuit_breaker.py:203-209 | having read half-open, a call lets its request through iff the probe lock was held when it read the lock |
| BreakerWorkers.FaultsFailOpen | gateway/src/prometheus_gateway/circuit_breaker.py:121-211 | a failed read lets the request through and is not cached; a lock not taken or not read refuses it; a probe won goes ahead though Redis was not told; any other lost command ends its call and changes nothing |
| BreakerClosing.CounterIsTheTally | gateway/src/prometheus_gateway/circuit_breaker.py:195-226 | a process's success counter is, in every run, the successes of it that read half-open since it last won a probe or heard that the circuit was closed |
| BreakerClosing.ClosesIffEnoughSuccesses | gateway/src/prometheus_gateway/circuit_breaker.py:213-283 | a circuit that is not closed closes, over any stretch that leaves no closing command on its way, iff some process recorded a success that read half-open and brought that count to the threshold, whatever the other workers, the clock and the lock did |
| BreakerClosing.ProbeClosesIff | gateway/src/prometheus_gateway/circuit_breaker.py:195-226 | from a won probe on, while only the prober's successes read half-open, it closes iff at least success_threshold of them do |
| BreakerScenarios.StuckForEver | gateway/src/prometheus_gateway/circuit_breaker.py:203-209 | half-open with the lock gone, nothing under way and no cache of any use: every fault-free continuation refuses every request |
| BreakerEscapes.EscapesIffNotStuck | gateway/src/prometheus_gateway/circuit_breaker.py:116-211 | and of half-open circuits with no call in flight these are the only ones: from any other, some fault-free continuation lets a request through |
| BreakerScenarios.StuckIsReachable | gateway/src/prometheus_gateway/circuit_breaker.py:116-226 | and a fault-free run from the start leads there under every configuration, a success threshold of one included |
| BreakerScenarios.HealthyProbeGetsStuck | gateway/src/prometheus_gateway/circuit_breaker.py:116-226 | from open, in one process, with a backend that never fails again: a look asked before the probe was won and answered after makes the probe's success read open |
| BreakerScenarios.StaleCacheStripsOpenedAt | gateway/src/prometheus_gateway/circuit_breaker.py:121-201 | under every configuration a fault-free run that ends half-open with no opened_at, through a cache older than a close |
| BreakerScenarios.AloneIsSequential | gateway/src/prometheus_gateway/circuit_breaker.py:116-283 | a worker's call that nobody interleaves with ends, and is the sequential breaker's call |
| Routing.HealthyMembers | gateway/src/prometheus_gateway/router.py:290-340 | usable, least loaded first: the probe won, if any, then the ready replicas; every other one with its reason; the earliest recovery among those passed over |
| Routing.ByLoadIsStable | gateway/src/prometheus_gateway/router.py:290 | loads ascend, and candidates of equal load keep the registry's order |
| Routing.AtMostOneProbe | gateway/src/prometheus_gateway/router.py:292-340 | one call wins at most one probe, it is the last one asked for, and none is asked for behind a first replica that is ready |
| Routing.WonIsTheFirst | gateway/src/prometheus_gateway/router.py:316-338 | the probe won is that of the first replica that would grant one, iff no replica before it takes requests without |
| Routing.ReadyOnesTake | gateway/src/prometheus_gateway/router.py:290-324 | the others usable are exactly the replicas that answer, have room, and whose breaker is closed, missing or unreadable |
| Routing.SkippedTellsWhy | gateway/src/prometheus_gateway/router.py:290-334 | each replica not usable, and no other, is left out for what is wrong with it: unreachable, else saturated, else the state of its circuit |
| Routing.RecoveriesAreTheirs | gateway/src/prometheus_gateway/router.py:333-334 | the times waited for are those of replicas left out for their circuit, and all of them |
| Routing.NobodyForgotten | gateway/src/prometheus_gateway/router.py:292-340 | every candidate is usable or has a reason |
| Idempotency.IdempotencyStore.Begin | gateway/src/prometheus_gateway/idempotency.py:146-227 | told to proceed iff the key is short enough and had no row or one more than a day old, and then its own unfinished row is there; otherwise nothing changes, and the answer is reuse for another fingerprint, in progress for an unfinished row, its body for a finished one, or that the body was not kept |
| Idempotency.IdempotencyStore.Complete | gateway/src/prometheus_gateway/idempotency.py:230-250 | the row there is finished with this status and body, an over-large body dropped; no row, no change |
| Idempotency.IdempotencyStore.Release | gateway/src/prometheus_gateway/idempotency.py:253-264 | only a row still in progress goes |
| Idempotency.IdempotencyStore.SettleResponse | gateway/src/prometheus_gateway/main.py:328-362 | a 2xx answer completes the claim and anything else, an exception included, frees it; no other key is touched |
| Idempotency.IdempotencyStore.PurgeExpired | gateway/src/prometheus_gateway/idempotency.py:267-283 | removes exactly the expired rows and says how many |
| Idempotency.EstimatedWait | gateway/src/prometheus_gateway/idempotency.py:286-303 | at least a second, never short of the estimate's end and less than a second past it otherwise; two seconds without an estimate |
| IdempotencyRuns.ConsistentIffSane | gateway/src/prometheus_gateway/idempotency.py:172-283 | from a consistent table, a step keeps every row its claim's and every live claim its row iff it does not delete a row that is unfinished or unexpired |
| IdempotencyRuns.AlwaysConsistentIffOrderly | gateway/src/prometheus_gateway/idempotency.py:172-283 | a run is consistent all along iff each of its deletes is sound |
| IdempotencyRuns.OneLiveClaimPerKey | gateway/src/prometheus_gateway/idempotency.py:172-227 | in a run whose deletes are sound, two live claims on a key are one claim |
| IdempotencyRuns.WhoProceedsHasAClaim | gateway/src/prometheus_gateway/idempotency.py:172-227 | in every run as many attempts have been told to proceed with a key and fingerprint as there are claims of them: a claim is one execution |
| IdempotencyRuns.ReplaysAreTheAskersOwn | gateway/src/prometheus_gateway/idempotency.py:172-227 | every replay is the stored status and body of a claim with the asker's own key and fingerprint, inside the window |
| IdempotencyRuns.ExecutedAgainOnlyAfterRelease | gateway/src/prometheus_gateway/idempotency.py:172-264 | a key is claimed twice within the window only if the first claim was released |
| IdempotencyRuns.AtomicAndPromptIsOrderly | gateway/src/prometheus_gateway/idempotency.py:172-227 | deletes are sound in every run where nothing comes between a read and its delete and no claim outlives 24 h |
| IdempotencyRuns.TwoLiveClaims | gateway/src/prometheus_gateway/idempotency.py:177-216 | without the first: at any key, two retries of an expired row both proceed |
| IdempotencyRuns.WrongReplay | gateway/src/prometheus_gateway/idempotency.py:230-250 | without the second: at any key and any two requests, a late completion lands on its successor's row, and is replayed to a request nobody completed |
| Stream.DrainStream | gateway/src/prometheus_gateway/router.py:4188-4302 | an undisturbed stream's frames: the non-empty upstream lines in order but those data lines that contain [DONE], an error frame iff upstream raised, one [DONE]; and what is billed |
| Stream.SkippedIff | gateway/src/prometheus_gateway/router.py:4189-4198 | the lines left out are the blank ones and the data lines that say [DONE] anywhere |
| Stream.TerminalFrameOnce | gateway/src/prometheus_gateway/router.py:4107-4133 | exactly one frame of a drained stream begins with the terminal marker, and it is the last |
| Stream.TerminalIffDone | gateway/src/prometheus_gateway/router.py:4107-4133 | testing a frame's text for the marker singles out the gateway's own last frame, whatever the upstream sent |
| Stream.BilledIsLastReportOrDeltas | gateway/src/prometheus_gateway/router.py:4322-4328 | billed are the counts last reported, or the estimated prompt and the content and reasoning deltas where no completion was |
| StreamRuns.FinishedStreamsAreSettledOnce | gateway/src/prometheus_gateway/router.py:4096-4149 | however a started stream ends - drained, raised, closed at any yield, cancelled at any await - its slot was released once, it was accounted once under one reason, and its claim stored or freed |
| StreamRuns.NothingTwice | gateway/src/prometheus_gateway/router.py:4096-4149 | at no step is any of these done a second time, nor a settled claim changed |
| StreamRuns.LeftAloneItEnds | gateway/src/prometheus_gateway/router.py:4096-4149 | from wherever a stream has got to, thirteen or fewer undisturbed steps end it: the upstream ending, awaits returning, the client reading on, what it abandoned being collected |
| StreamRuns.NeverStartedKeepsEverything | gateway/src/prometheus_gateway/router.py:4096-4149 | a response discarded before its first frame keeps its slot and its claim, whatever follows |
| StreamContent.ReasonIsTrue | gateway/src/prometheus_gateway/router.py:4315-4321 | of the three reasons, an error is given only if upstream raised, completion only if it ended, a disconnection only if something interrupted |
| StreamContent.BillsWhatArrived | gateway/src/prometheus_gateway/router.py:4188-4328 | every finished stream bills by the lines that had arrived |
| StreamContent.DrainedContent | gateway/src/prometheus_gateway/router.py:4107-4302 | a client that reads to the end receives DrainStream's frames, of any run of both generators |
| StreamContent.StoredBodyIsWholeIffNotStrayed | gateway/src/prometheus_gateway/router.py:554-573 | a body stored for replay is every forwarded line and the terminal frame; its upstream ran to its end iff no cancellation came before that end |
| StreamContent.UndisturbedIsStoredIffErrorFree | gateway/src/prometheus_gateway/router.py:554-573 | a claimed stream nobody interrupts is stored as the very text it delivered, iff that text nowhere says "error" in quotation marks, as it does whenever the upstream raised; its key is given back otherwise |
| StreamContent.StoredIffSettledWell | gateway/src/prometheus_gateway/router.py:4107-4149 | and of any stream, however interrupted, a body is stored iff a settlement of its terminal frame was committed whose text said no such thing |
| StreamContent.TruncatedBodyIsStored | gateway/src/prometheus_gateway/router.py:4303-4469 | a cancellation inside the inner await after any first line, whose finally still yields the terminal frame, stores what there is as a complete answer unless it mentions an error, as no line without a quotation mark does |
| Ledger.TokenCost | gateway/src/prometheus_gateway/pricing.py:199-217 | a cost only with both prices, and then the sum of the two components the rollup records |
| Ledger.PricingTable.SetPrice | gateway/src/prometheus_gateway/pricing.py:153-170 | the new price, and every other model's untouched |
| Ledger.PricingTable.RemovePrice | gateway/src/prometheus_gateway/pricing.py:172-180 | the file's own price back, or none; every other model's untouched |
| Ledger.EstimateIsRecorded | gateway/src/prometheus_gateway/pricing.py:182-226 | the estimate made before the work resolves the price by the same names and is the cost recorded after it, tokens and images alike |
| Ledger.EventBalancesIff | gateway/src/prometheus_gateway/db.py:657-690 | the cost written on an event is the NULL-aware sum of its three components iff both look-ups find the same, as they do for every request that names its model |
| Ledger.UsageDb.RecordUsage | gateway/src/prometheus_gateway/db.py:624-736 | one event appended, and its (day, client, model) row inserted or accumulated by the request's prompt and completion tokens, one request and its cost, NULLs absorbed; no other row touched |
| Ledger.RecordedColumns | gateway/src/prometheus_gateway/db.py:571-736 | an event has the request's own counts, the prices of its kind found by its model's name or else its slug's, and the cost those make |
| Ledger.RecordedParts | gateway/src/prometheus_gateway/db.py:657-736 | and each of the three parts of that cost is added where it belongs in the row, which takes on the event's label |
| Ledger.UsageDb.Plan | scripts/reprice_unpriced_usage.py:93-124 | the repairs are exactly those of Repairable; too old are exactly the unpriced events no newer than the price by their name, and unpriced those that no price fits |
| Ledger.Repairable | scripts/reprice_unpriced_usage.py:93-124 | each repair is of an unpriced event of its own at a price that prices it |
| Ledger.UsageDb.PriceEvents | scripts/reprice_unpriced_usage.py:131-146 | the events repaired in place, and the corrections gathered row by row |
| Ledger.UsageDb.AddToRollup | scripts/reprice_unpriced_usage.py:148-156 | each row there is moves by its gathered correction and keeps its label; no row is made |
| Ledger.UsageDb.ApplyChanges | scripts/reprice_unpriced_usage.py:127-159 | both, as one transaction |
| LedgerRuns.TallyRepaired | scripts/reprice_unpriced_usage.py:127-156 | pricing events moves the fold of every row's events by exactly what the script adds to that row |
| LedgerRuns.LedgerAgrees | gateway/src/prometheus_gateway/db.py:571-736 | over any run of recordings under any prices and of repairs planned at one time and committed at another, every rollup row is its starting value plus the fold of its events, and every event has a row |
| LedgerRuns.LedgerAgreesFromTheStart | gateway/src/prometheus_gateway/db.py:571-736 | in particular from an empty event log beside any rollup |
| LedgerRuns.RowsCountTheirEvents | gateway/src/prometheus_gateway/db.py:571-736 | so over any run, at any prices, a row's prompt tokens, completion tokens and requests are what they were and the sums of those columns over the events under its key |
| LedgerRuns.RowsCostTheirEvents | gateway/src/prometheus_gateway/db.py:571-736 | and its cost and the cost's three parts what they were and the sums of its events' costs, and of their counts at the prices written on them |
| LedgerRuns.RowsGoByTheNewestName | gateway/src/prometheus_gateway/db.py:598-604 | over any run a row is labelled with the name its newest event went by; repairs change no label |
| LedgerRuns.CostIsNullIffNothingPriced | gateway/src/prometheus_gateway/db.py:561-568 | a row's cost is NULL iff its starting cost was and no event of it has a cost, and is always the NULL-aware sum of its three components |
| LedgerRuns.PlanHoldsTheWanted | scripts/reprice_unpriced_usage.py:93-124 | an event is planned, at a price, iff it is unpriced and that price fits it: its name's, if the event is newer or its age is ignored, or its kind's base price, if its age is ignored and its names have none |
| LedgerRuns.RepairingTwiceIsOnce | scripts/reprice_unpriced_usage.py:93-159 | after a plan is applied, planning again under the same prices finds nothing |
| LedgerRuns.LateIsOnTime | scripts/reprice_unpriced_usage.py:45-61 | a request recorded before its price existed and repaired with it is, column for column, the request recorded with the price in place |
| LedgerRuns.StalePlanIsAddedTwice | scripts/reprice_unpriced_usage.py:127-156 | one plan committed twice leaves the events right and every row over by the whole correction |
| LedgerScripts.ScriptsKeepCountsIff | scripts/reprice_unpriced_usage.py:93-159 | however many scripts plan and commit, with recordings and reunifications between, the rollup counts its events' tokens, requests and cost after every step iff every commit is right by every row as it finds it |
| LedgerScripts.CommitKeepsCountsIff | scripts/reprice_unpriced_usage.py:127-156 | a plan of any length, committed however late, keeps the count iff it is right by every row: what it adds to a row there is what its events now under the row gain; and a row without a cost gets one iff some event of it does |
| LedgerScripts.FreshScriptsKeepCounts | scripts/reprice_unpriced_usage.py:93-159 | as are commits all of whose planned events are still unpriced and under their names |
| LedgerScripts.OneCommitKeepsCountsIffHarmless | scripts/reprice_unpriced_usage.py:127-156 | for a plan of one event: iff, under the planned name, nobody priced the event above nothing; or, under another, the planned row is gone or gains nothing and the event has this very cost by now, or gains nothing |
| Reunify.Apply | scripts/reunify_usage_history.py:69-123 | the loop of updates, merges, deletes and renames, against its statement-by-statement specification |
| Reunify.StatementsMove | scripts/reunify_usage_history.py:86-118 | the three rollup statements together leave no row under the old name, one row per day and client under the new, and every other row as it was |
| Reunify.RowsMove | scripts/reunify_usage_history.py:86-118 | row by row: one alone under the old name moves with its totals, labelled with that name unless it has a label; of two the one under the new name keeps its label and components, counts and cost added up; every other row stays |
| Reunify.ReunifiedLedgerCounts | scripts/reunify_usage_history.py:69-123 | a rollup that agreed with its events before still counts their tokens, requests and cost after, over the residual reunified the same way |
| Reunify.ReunifyConserves | scripts/reunify_usage_history.py:86-118 | each (day, client) keeps its tokens, requests and cost, whatever the mapping |
| Reunify.ComponentsKeptIffNothingLost | scripts/reunify_usage_history.py:69-108 | under any mapping a day's and client's sum of each of the three components goes down by what the rows merged away held, one renaming after another, and is kept iff that is nothing and no merge takes the last row with any |
| Reunify.MergeBalancesIffFree | scripts/reunify_usage_history.py:86-108 | two rows whose cost is their components' merge into one whose cost is iff the one merged away cost nothing |
| ReunifyTwice.EventAfter | scripts/reunify_usage_history.py:75-80 | an event's name after the whole mapping is where the renamings take it one after the other, its label its first name if it moved without one |
| ReunifyTwice.ReunifyIsIdempotentIffSettled | scripts/reunify_usage_history.py:69-123 | applying a mapping twice is applying it once, on every rollup and every event log, iff no name is taken on from where it ends |
| ReunifyTwice.UnsettledMovesAgain | scripts/reunify_usage_history.py:69-123 | otherwise every rollup of one row, and every log of one event, under a name that is taken on, moves again |
| ReunifyTwice.NoneRefilledIsSettled | scripts/reunify_usage_history.py:69-123 | as it is not when no renaming leads back into a name an earlier one emptied, disjoint old and new names among them |
| RateLimiter.RateLimiter.CheckAndIncrementRpm | gateway/src/prometheus_gateway/rate_limiter.py:214-246 | counts the attempt first, on the counter of now / 60, kept 90 seconds from its first, then allows it iff the count is within the limit; the remainder and the reset are of the same minute; no other counter moves |
| RateLimiter.RateLimiter.CheckAndIncrementRpd | gateway/src/prometheus_gateway/rate_limiter.py:124-151 | the same over a UTC day, kept 26 hours |
| RateLimiter.RateLimiter.CheckBudget | gateway/src/prometheus_gateway/rate_limiter.py:153-190 | reads one counter and changes none: allowed iff what is used and what is asked fit |
| RateLimiter.RateLimiter.IncrementTpm | gateway/src/prometheus_gateway/rate_limiter.py:276-314 | the combined, input and output counters each move by their own amount, nothing else does, and no counter of the minute can expire inside it |
| RateLimiter.RateLimiter.IncrementTpd | gateway/src/prometheus_gateway/rate_limiter.py:203-212 | the day's token counter moves by the total |
| RateLimiter.RateLimiter.IncrementIpm | gateway/src/prometheus_gateway/rate_limiter.py:192-201 | the minute's image counter moves by the images produced |
| RateLimiter.AddedLasts | gateway/src/prometheus_gateway/rate_limiter.py:63-67 | an increment inside a window leaves every counter to expire only after its window, and adds to one counter alone |
| RateLimiter.LastingIsExact | gateway/src/prometheus_gateway/rate_limiter.py:63-67 | a counter read inside its window has not expired |
| FixedWindow.CounterIsExactIffUnbroken | gateway/src/prometheus_gateway/rate_limiter.py:221-234 | in every run, however late attempts reach Redis, one is counted with all before it on its bucket iff none of them found the counter expired |
| FixedWindow.ExactlyTheLimitIff | gateway/src/prometheus_gateway/rate_limiter.py:214-246 | of n attempts on a key in a bucket exactly min(n, limit) are allowed, in every interleaving of their commands, iff n is within the limit, or the limit is nothing, or the counter never expired between them |
| FixedWindow.ExactlyTheLimit | gateway/src/prometheus_gateway/rate_limiter.py:63-67 | as it never does when attempts reach Redis within its lifetime of their bucket's beginning, minute or day |
| FixedWindow.AtMostTwice | gateway/src/prometheus_gateway/rate_limiter.py:214-246 | of such attempts no stretch as long as a window admits more than twice the limit, by when they read the clock |
| FixedWindow.AtMostTwiceAtRedis | gateway/src/prometheus_gateway/rate_limiter.py:214-246 | nor by when Redis counted them, where each is counted inside its own window |
| FixedWindow.AtMostThriceAtRedis | gateway/src/prometheus_gateway/rate_limiter.py:63-67 | and otherwise no more than three times, the counter's lifetime being less than two windows |
| FixedWindow.ThriceAtRedis | gateway/src/prometheus_gateway/rate_limiter.py:63-67 | and at every limit a prompt run has that many, each window's whole limit, counted in one stretch |
| FixedWindow.TwiceInTwoSeconds | gateway/src/prometheus_gateway/rate_limiter.py:1-7 | at every limit a run admits twice as many in two seconds |
| FixedWindow.LateIncrementAdmitsMore | gateway/src/prometheus_gateway/rate_limiter.py:221-234 | at every limit, an attempt that reaches Redis a counter's lifetime after reading its clock is one too many |
| Meter.TokensOvershootByWhatIsInFlight | gateway/src/prometheus_gateway/rate_limiter.py:248-314 | with at most C requests in flight of at most M tokens each, a bucket is never charged more than its limit and C*M, whatever was under way when it began |
| Meter.ImagesOvershootByTheOthers | gateway/src/prometheus_gateway/rate_limiter.py:167-201 | images, asked for beforehand, are never charged past the limit and (C-1)*M |
| Meter.PassesIffThereIsRoom | gateway/src/prometheus_gateway/rate_limiter.py:153-201 | a request passes such a gate iff what its bucket was ever charged leaves room for what it asks, in every run and while the counter is kept |
| Meter.UseIsChargedOnce | gateway/src/prometheus_gateway/rate_limiter.py:192-314 | and is charged all it used, once, to the bucket of the moment it is known |
| RateLimits.CheckLimits | gateway/src/prometheus_gateway/rate_limit_middleware.py:390-746 | all layers in the source's order, each check at its own reading of the clock, up to the first refusal: the counters and the refusal are those of performing the plan's checks one after another |
| RateLimits.CheckClient | gateway/src/prometheus_gateway/rate_limit_middleware.py:611-683 | the client's layer across endpoints, once per name, then whatever follows |
| RateLimits.CheckDaily | gateway/src/prometheus_gateway/rate_limit_middleware.py:685-708 | the day's layer, once per claim, so twice for a client that is its own user |
| RateLimits.BudgetsAreShared | gateway/src/prometheus_gateway/rate_limit_middleware.py:73-78 | two paths share an endpoint's budget only if equal, both unmapped, both administrative or both pass-through |
| RateLimits.BudgetOf | gateway/src/prometheus_gateway/rate_limit_middleware.py:47-78 | which those are: the four inference routes to the letter, whatever begins with the administrator's prefix, and whatever begins and ends as a model's pass-through |
| LimitOrder.RefusalComesInRank | gateway/src/prometheus_gateway/rate_limit_middleware.py:390-746 | whichever check refuses, every check that ranks before it has been made: the platform; the route for client, user and tokens; then name by name across all routes; then the day on the route; then the directions |
| RequestLimits.TimesPlan | gateway/src/prometheus_gateway/rate_limit_middleware.py:427-746 | how often an allowed request is charged to each counter there is |
| RequestLimits.ChargedOnceIff | gateway/src/prometheus_gateway/rate_limit_middleware.py:486-708 | no counter is charged twice iff the daily request limit does not meet a client that is its own user |
| RequestLimits.RequestMovesCounters | gateway/src/prometheus_gateway/rate_limit_middleware.py:427-746 | refused or allowed, at whatever readings of the clock, a request moves every counter whose window is not over by the counting checks it got to there |
| RequestLimits.AllowedMovesCounters | gateway/src/prometheus_gateway/rate_limit_middleware.py:427-746 | allowed, by no more than what TimesPlan charges, and by all of it where the request does not leave the counter's window |
| RequestLimits.ChargeUsage | gateway/src/prometheus_gateway/router.py:3763-3822 | a served request's tokens and images reach the client's and a distinct user's counters on the route and across all, and the platform's, each once, and no other; an image request without images, or another without tokens, none |
| RequestLimits.CheckImageGate | gateway/src/prometheus_gateway/router.py:3339-3366 | refuses iff some name's image counter has no room for what is asked, and charges nothing |
| RequestLimits.ReadsAreCharged | gateway/src/prometheus_gateway/router.py:3773-3822 | on a route whose handler records usage, every token or image counter some check reads is charged all of the request's amount |
| RequestLimits.OnlyItsOwnAreCharged | gateway/src/prometheus_gateway/router.py:3763-3822 | and nothing else is: no other name's, route's or window's counter, none that counts requests, and none at all of a request that recorded nothing |
| RequestLimits.UnservedReadsAreNeverCharged | gateway/src/prometheus_gateway/rate_limit_middleware.py:529-534 | on the other routes a token counter is read that no handler ever charges |
| RequestLimits.RefusedIffHeld | gateway/src/prometheus_gateway/rate_limit_middleware.py:427-746 | the limits some enforced check refuses at, counter by counter |
| RequestLimits.ShownIsEnforcedUnlessParted | gateway/src/prometheus_gateway/rate_limits.py:208-316 | the live view shows the limit a check refuses at, and none where none does, for every counter of a request except those listed in Parted, and for none of those |
| RequestLimits.SourceIsTrue | gateway/src/prometheus_gateway/rate_limits.py:262-316 | and where a shown limit is said to come from is where it comes from |
| LoginThrottle.LoginThrottle.Recent | auth-service/src/prometheus_auth/login_throttle.py:80-88 | the key's queue with its front popped out of the window, kept under the key |
| LoginThrottle.LoginThrottle.RetryAfter | auth-service/src/prometheus_auth/login_throttle.py:90-100 | budget, the seconds to wait, or the error of an empty queue at its maximum |
| LoginThrottle.LoginThrottle.RecordFailure | auth-service/src/prometheus_auth/login_throttle.py:102-104 | the pruned queue with this failure last |
| LoginThrottle.LoginThrottle.Clear | auth-service/src/prometheus_auth/login_throttle.py:106-112 | the key forgotten, no other touched |
| LoginThrottle.QueueIsTheWindow | auth-service/src/prometheus_auth/login_throttle.py:80-112 | at every later moment the pruned queue is the key's whole failure history since its last success, filtered to the window |
| LoginThrottle.AnswerIsOfTheWindow | auth-service/src/prometheus_auth/login_throttle.py:80-100 | so a check's answer is the failures' own: budget iff fewer than max of them fall in the window, else a wait until the first of those is out of it, within a second |
| LoginThrottle.BudgetKeptIffHeeded | auth-service/src/prometheus_auth/login_throttle.py:90-104 | at every moment of a history any failure and the one max later are a window apart iff each failure was let through by a check at its own moment |
| LoginThrottle.SequentialIsHeeded | auth-service/src/prometheus_auth/routers/oauth2.py:107-186 | which a check made before the credentials were looked at is as good as, if no other failure of the key was recorded since |
| LoginThrottle.CheckThenRecordKeepsBudget | auth-service/src/prometheus_auth/routers/oauth2.py:107-186 | so that where attempts follow one another, each checked, tried and recorded, the budget is kept at every moment |
| LoginThrottle.SpreadFitsEveryWindow | auth-service/src/prometheus_auth/login_throttle.py:90-104 | so no window, however laid, holds more than max |
| LoginThrottle.WaitingRestoresIff | auth-service/src/prometheus_auth/login_throttle.py:90-100 | waiting as told restores budget iff the failure that has to go is out by then, always when the queue holds exactly max; the wait is more than needed by at most a second |
| LoginThrottle.NoShorterWaitRestores | auth-service/src/prometheus_auth/login_throttle.py:90-100 | and nothing shorter than the need does |
| LoginThrottle.CheckThenRecordWaitsRestore | auth-service/src/prometheus_auth/routers/oauth2.py:107-186 | and there the queue never holds more than max, and waiting always restores |
| LoginThrottle.NoBudgetAtAll | auth-service/src/prometheus_auth/login_throttle.py:98-100 | a maximum of zero raises on a key that never failed |
| LoginThrottle.OverlappingAttemptsOvershoot | auth-service/src/prometheus_auth/login_throttle.py:90-104 | at every max, one attempt more than it, all checked before any is recorded: each check finds budget, and the failures exceed it |
| Activity.ActivityTracker.Touch | gateway/src/prometheus_gateway/telemetry.py:425-469 | the identity's entry made or refreshed, its action counted in the minute's bucket, stale buckets and paths beyond ten dropped |
| Activity.ActivityTracker.Refuse | gateway/src/prometheus_gateway/telemetry.py:476-502 | counts a refusal of a known identity, unless it would be the twenty-first pair |
| Activity.ActivityTracker.Snapshot | gateway/src/prometheus_gateway/telemetry.py:504-575 | drops the stale identities, and shows of the others how long ago they were seen, exactly the actions with a count in the window, each with how long ago it was, the refusals with one, and the other paths |
| Activity.SnapshotIsExact | gateway/src/prometheus_gateway/telemetry.py:404-575 | under a clock that never goes back the count shown is the number of touches in the last fifteen minute-buckets of the whole history: neither pruning nor dropping loses a counted touch |
| Activity.StorageIsBounded | gateway/src/prometheus_gateway/telemetry.py:421-502 | an identity never holds more than sixteen buckets an action or refusal, ten paths and twenty refusals |
| ActivityRefusals.RefusalsAreExactIffNoneLost | gateway/src/prometheus_gateway/telemetry.py:476-575 | the count shown for a refusal is that of the whole history's last fifteen buckets iff each of them was recorded, its identity being there and its pair not the twenty-first, and no look has dropped the identity since |
| ActivityRefusals.EntryIsTheLastTouch | gateway/src/prometheus_gateway/telemetry.py:425-469 | an entry's user, connection and last-seen are those of the identity's last touch, and each action's last-seen that of the last of its kind |
| ActivityRefusals.PathsAreExactOrFull | gateway/src/prometheus_gateway/telemetry.py:450-462 | an unrecognised path that is shown has been counted every time since the identity was last dropped; one asked for and not shown found ten others there |
| ActivityRefusals.ViewTellsWho | gateway/src/prometheus_gateway/telemetry.py:504-521 | so what a look shows is told by the history alone: the identity's last touch, its user, connection and how long ago, at most fifteen minutes |
| ActivityRefusals.ViewTellsWhat | gateway/src/prometheus_gateway/telemetry.py:522-543 | exactly the actions touched in the last fifteen minute-buckets, each with how often and how long since the last |
| ActivityRefusals.ViewTellsRefusals | gateway/src/prometheus_gateway/telemetry.py:556-571 | and exactly the refusals of them still held, with their number |
| ActivityRefusals.RefusalIsLostIffQuiet | gateway/src/prometheus_gateway/telemetry.py:504-514 | with no look since it was recorded, the next one loses a refusal of the window iff the identity's last touch is more than fifteen minutes old |

## Left out

- BudgetTracker: the 40-day expiry of its keys and the cached billing settings are not modelled; a month's keys outlive the month.
- ParseThresholds: what float() reads is a parameter, whitespace is ASCII's, and an infinite number, which the source does not survive, is not among its readings.
- CapHolds: assumes estimates that are not negative and a cap on every reserve of the month no higher than the one named; without a cap there is nothing to hold.
- Money: binary floating point is `real`; only the rounding to micro-dollars is modelled.
- Breaker.CircuitBreaker: a call finds Redis up or down throughout; commands that fail one by one are in BreakerWorkers.
- OneWorkerIsTheAutomaton: assumes a failure threshold of at least one, which the configuration requires, thresholds that stay put and Redis up.
- BreakerWorkers: one clock for all processes. StuckForEver and the runs of BreakerScenarios take outcomes only from requests still under way.
- ClosesIffEnoughSuccesses: over stretches in which no closing command fails to reach Redis; one that does leaves the circuit as it was.
- HealthyMembers: replica health, load, saturation and what a breaker would grant are inputs.
- Begin: the JSON text and the SHA-256 of a request are its path and payload themselves; the insert that loses a race is in IdempotencyRuns.
- IdempotencyRuns: the read and the write of complete and of release are one step, and the header helpers are left out.
- StreamRuns: `upstream.aclose()` that itself raises, the tracing spans, and a detached accounting task that is lost with its process.
- Stream: JSON parsing; a line comes with what its payload says.
- Ledger: instance, latency, cached tokens and other columns no sum depends on.
- LedgerAgrees: of one script's plan and commit; several scripts and reunifications are in LedgerScripts, which keeps tokens, requests and cost but, reunifying, not the cost's components.
- CommitKeepsCountsIff: of plans as the script makes them: each event at most once, at a price that prices it.
- Reunify: the row count the script prints, and the plan it prints first.
- ReunifyIsIdempotentIffSettled: of mappings that rename nothing to itself, which the script excludes.
- CheckLimits: the reserved platform name and the all-endpoints mark are constructors, so that no caller's name can equal them; each check reads the clock once; response headers and bodies are left out.
- CheckImageGate: the identities are taken client first; the source takes them from a set.
- Redis outages in rate limiting: fail-open or fail-closed by one setting, no more.
- CheckThenRecordKeepsBudget: of attempts on a key that do not overlap; OverlappingAttemptsOvershoot shows why. The throttle is per process, as in the source.
- EscapesIffNotStuck: of circuits with no call in flight and a recovery timeout of at least a second.
- Snapshot: ordering for display.
- The dashboard, share pages, traffic splits, billing summaries, audit log, health monitor, tokens and mail: plumbing, or small and sequential.
