# Verified model of the usage billing store

The system accepts priced usage events once, queues them, posts each to a ledger once, isolates
events that violate ledger constraints, and lets an operator reactivate a quarantined event for one
generation. This project models that behaviour in Dafny and proves what the system promises for
every input, every interleaving of transactions and every failure point.

## How the model is built

Two levels describe the database protocol.

* **Atomic level** (`Tables`, `Atomic`): the committed state is three tables: frozen usage, the queue
  with failures, code, generation and enqueue time, and the posted marks. One step is one whole
  committed transaction: an admission, a settled batch or a reactivation.
* **Interleaved level** (`Statements`, `Sessions`, `Machine`): any number of sessions, each with a
  program counter, private writes, held locks and a savepoint stack. One move is one SQL statement,
  which reads the tables as committed now plus its own writes (READ COMMITTED, section 13.2.1 of the
  PostgreSQL documentation). A statement may have to wait for a lock, any transaction may be lost at any
  point, and COMMIT is confirmed, lost, or done although its caller sees an error. The ledger constraint
  lets each INSERT pass or refuses it with an SQLSTATE. A refused INSERT leaves any part of its marks
  behind and aborts the transaction: every statement then fails except the rollback to a savepoint.

`Machine.Refinement` connects them: under every schedule, the committed tables are reached by running
the logged transactions whole, in commit order. What is proved of every atomic run in `Atomic` therefore
holds of every interleaving; what depends on locks and on who runs when is proved on the interleaved level
directly (`Traces` gives its runs as sequences of states). `SessionProofs` shows that each statement keeps
a session's private state coherent with the tables, `Interference` that no other session's commit can
disturb it, and `Claims` that claimed rows stay as the claim saw them.

`Store` holds the same operations in imperative form, as classes over a mutable database whose methods
issue the same statements one by one, including the loop over claimed rows and the report array that the
fallback updates in place. The remaining modules are the pricing service (`Billing`), the polling worker
(`Workers`, `Reconciliation`), the strict request decoders (`Decoding`), request ids (`RequestIds`), and
the guarded migrations (`Migrations`).

Main results:

* refinement, deadlock freedom and the admission bound for all schedules;
* single charge, no loss, frozen rows, at most one reactivation per generation;
* reports, counters and log lines that agree with committed data even under ambiguous commits;
* bulk posting and the per-event fallback have one common specification, and the rollbacks between them
  remove exactly what the failed INSERTs left behind;
* for any number of workers under every schedule, draining terminates, and poison at the head of the
  queue cannot starve a row that the claims find unlocked;
* summaries count every event once and charge units times the frozen price;
* an exact overflow guard, and replay of the original price under any later rate;
* the closed form of the backoff, exact decoders, canonical request ids, lossless migrations;
* two properties that do not hold as one might state them, with their exact conditions (see Findings).

`dafny verify dfyconfig.toml` checks the project.

## Model

| member | source | states |
|---|---|---|
| `Machine.Refinement` | internal/postgres/store.go:40-366 | For every schedule of statements, aborts and ambiguous commits of any number of Accept, ProcessBatch and Retry transactions, the committed tables are the result of the logged transactions run whole in commit order, and satisfy every key, reference and CHECK |
| `Machine.TakeSound` | internal/postgres/store.go:344-366 | One move of any session keeps every open session coherent with the tables, all locks disjoint and the history a legal atomic run |
| `SessionProofs.ExecCoherent` | internal/postgres/store.go:40-342 | Whatever statement a session runs next, its writes, locks, savepoints and local results stay those of running its statements so far, alone, on the current tables |
| `Statements.RollbackUndoes` | internal/postgres/store.go:219-224 | Rolling back to a savepoint taken just before a refused INSERT removes exactly the marks it left and makes the aborted transaction usable again |
| `SessionProofs.RestoreStep` | internal/postgres/store.go:219-224 | In every reachable state the batch rollback finds the transaction aborted, removes all marks of the failed bulk INSERT, keeps the claimed locks, and leaves a usable transaction with no writes |
| `SessionProofs.EventRestoreStep` | internal/postgres/store.go:317-319 | In every reachable state the rollback of one isolated event removes at most that event's mark: all earlier events stay settled, all claimed locks stay held, and the aborted transaction is usable again |
| `SessionProofs.EventReleaseStep` | internal/postgres/store.go:337-339 | After each iteration, the last one included, the savepoint stack is back at its base and one more event is settled |
| `Interference.CommitStable` | internal/postgres/store.go:344-366 | A commit changes nothing that another open session has locked, and never grows the queue while another session holds the admission lock |
| `Interference.FinishedCommits` | internal/postgres/store.go:361-364 | The commit of a finished session equals, on the tables as they are at that moment, one legal atomic transaction |
| `Progress.Locks` | internal/postgres/store.go:44-76 | Who may hold what while waiting: event-key and row-lock waiters hold nothing, admission waiters only their own new key; whatever else a statement needs is held already or out of reach of others |
| `Progress.WaitsDescend` | internal/postgres/store.go:44-76 | The wait-for relation strictly descends in lock rank, so it has no cycle |
| `Progress.SomeoneRuns` | internal/postgres/store.go:182-187 | While a transaction is open, some transaction does not have to wait |
| `Progress.NoDeadlock` | internal/postgres/store.go:40-286 | From every reachable state, statements and commits alone finish every open transaction, without a single forced abort |
| `Guarantees.QueueBounded` | internal/postgres/store.go:55-76 | With one limit everywhere, no schedule takes the queue (pending plus failed) above the larger of its initial size and the limit |
| `Guarantees.SingleCharge` | internal/postgres/store.go:44-76 | For every schedule and between any two commits: accepted ids are the disjoint union of queued and posted ids, nothing accepted changes, no mark disappears, no event is admitted or charged twice, no generation reactivated twice |
| `Guarantees.HonestCounts` | internal/postgres/store.go:231-245 | Processed counts of confirmed batches plus the posts of commits reported as errors equal the ledger's growth |
| `Guarantees.HonestReports` | internal/postgres/store.go:324-335 | Every outcome, failure count, code and generation of a confirmed batch is a fact about the claimed rows, which are as the claim saw them, and about the tables after the commit, item by item |
| `Replies.RepliesTrusted` | internal/postgres/store.go:77-90 | Every accept reply ever given shows the row as it is still stored; created is reported at most once per id, retried at most once per event and generation; error replies carry request ids only |
| `Replays.AcceptRefusesExactly` | internal/postgres/store.go:58-88 | In every run, an admission is refused as full exactly while the committed queue is at the limit, and as a conflict exactly when a different input is committed under the id |
| `Replays.ReplayAnswered` | internal/postgres/store.go:77-90 | An Accept begun after its id is committed, ambiguously or not and under any price and limit, answers created false with the row as first committed, whatever runs around it |
| `Races.RetryJustifiedExactly` | internal/postgres/store.go:259-281 | In every run and at every retry lookup that goes on without reactivating, the answer is right under every continuation if and only if the event was accepted when the lookup ran, or never can be because the largest possible queue is full of rows quarantined at the last generation |
| `Races.LookupReached` | internal/postgres/store.go:257-260 | Such lookups are reached from all tables, for every id that is not queued and every generation |
| `Races.AcceptedMeansJustified` | internal/postgres/store.go:259-281 | If it was, the answer is right under every continuation: a found row stays locked, a posted event stays posted |
| `Races.NewMeansUnjustified` | internal/postgres/store.go:259-281 | If it was not and still can be, some continuation accepts it between lookup and read, after making room in a full queue if need be, and Retry answers without error for a pending event with nothing to reactivate |
| `Races.NoRoomMeansJustified` | internal/postgres/store.go:66-73 | If it never can be, the retry gives no answer but an error |
| `Room.MakeRoom` | internal/postgres/store.go:182-230 | Any queue can be emptied, by batches and retries, down to the rows quarantined at the last generation |
| `Tables.ClaimIsQueuePrefix` | internal/postgres/store.go:182-187 | The claim is exactly the first unlocked rows in enqueue order, tie-broken by id, without repetition, up to the limit |
| `Identifiers.LessIsDictionaryOrder` | internal/postgres/store.go:186 | The tie-break order of the claim is the dictionary order: a proper prefix, or the smaller character at the first difference |
| `Store.BatchIdsMean` | internal/postgres/store.go:182-187 | The claimed rows in figures: queued rows with fewer than three failures, by stamp and then by id, the first ones up to the limit |
| `Tables.ReadEventShows` | internal/postgres/store.go:101-121 | The lookup finds exactly the accepted events, and returns the one event that shows the stored usage, the ledger mark and the queue row's failures, code and generation, failed at exactly three failures |
| `Tables.ChecksMean` | migrations/000001_init.up.sql:4-29 | What every committed state satisfies, in figures: the partition of accepted ids into queue and ledger, identifiers, positive amounts equal to units times price, failures 0 to 3, the code empty exactly at 0 and one of five otherwise, canonical request ids |
| `Statements.RowsStampedNow` | migrations/000001_init.up.sql:12-19 | New usage and queue rows, and reactivated ones, carry the time of their statement |
| `Atomic.StepConsistent` | migrations/000001_init.up.sql:4-29 | No committed transaction breaks a key, a reference, the exact-amount CHECK or a queue CHECK |
| `Atomic.StepMovesRow` | migrations/000002_event_recovery.up.sql:4-8 | The failure-state machine: a queued row is posted, gains one failure below three, is reactivated from exactly its own quarantined generation, or stays as it is |
| `Atomic.StepAdmits` | internal/postgres/store.go:43-76 | An admission adds the priced input and a queue row without failures at generation 0, and nothing else, to tables without the id and a queue below the limit |
| `Atomic.StepSettles` | internal/postgres/store.go:212-230 | A batch marks exactly its posted ids and removes exactly their rows |
| `Atomic.OutcomesMean` | internal/postgres/store.go:312-335 | Under a fixed constraint an id is posted exactly when the constraint has no objection, and otherwise rejected with its code |
| `Atomic.ThreeAttempts` | internal/postgres/store.go:185-186 | A freshly admitted or reactivated event that is always rejected is claimed by three batches and by no fourth until it is reactivated; its failures count them |
| `Atomic.QuarantineHolds` | internal/postgres/store.go:182-187 | A quarantined row is neither claimed nor changed until a reactivation of it commits |
| `Atomic.PostedForever` | internal/postgres/store.go:212-230 | A posted id is never queued, claimed, posted or reactivated again, whatever generation is shown or sent for it |
| `Atomic.OneChargePerEvent` | internal/postgres/store.go:310-335 | Two batches of a run never post the same event |
| `Atomic.RetryOncePerGeneration` | internal/postgres/store.go:250-286 | Reactivations of one event have strictly increasing generations below the int64 maximum, so a stale generation revives nothing |
| `Atomic.RunBounded` | internal/postgres/store.go:55-76 | The admission bound over every atomic run |
| `Claims.ClaimAdvances` | internal/postgres/store.go:182-187 | A claim takes an eligible row, or is full of rows ahead of it, if and only if the row is not locked or enough unlocked rows are ahead of it |
| `Attempts.BatchSpends` | internal/postgres/store.go:306-340 | Every committed batch lowers the sum of remaining attempts by at least the number of rows it claims |
| `Draining.ClaimsBounded` | internal/postgres/store.go:182-230 | From any moment of any run, by any workers, without arrivals: all committed batches together claim at most as many rows as there are attempts left, which is at most three times the queue |
| `Draining.NonemptyBatchesBounded` | internal/postgres/store.go:182-230 | Hence at most three times the queue size many batches that claim anything commit |
| `Draining.BatchFollowsConstraint` | internal/postgres/store.go:209-234 | In every run under a fixed ledger constraint, from any moment on, a finished batch, bulk or one by one, has exactly the constraint's outcome for each of its ids |
| `Draining.EmptyClaimMeansDrained` | internal/postgres/store.go:182-208 | When a claim with nothing locked finds nothing, every remaining row is quarantined and every event eligible before that the constraint accepts is posted |
| `Draining.DrainTerminates` | internal/postgres/store.go:182-230 | From any moment of any run, under a fixed constraint and without arrivals, that is reached after as many useful batches as there are attempts left, at most three times the queue size; useful are those that claim something, or find nothing although no eligible row was locked |
| `Draining.LaterClaimsSeeAll` | internal/postgres/store.go:182-187 | A claim without later arrivals has seen every row still eligible, so an empty one is useful unless it found eligible rows locked |
| `Fairness.NoStarvation` | internal/postgres/store.go:182-187 | In every run, from any moment on at which an eligible row has r rows ahead of it, counting rows in flight: at most floor(3r/k) batches of k or more whose claim finds the row unlocked commit before one that has claimed it |
| `Fairness.NoStarvationUnlocked` | internal/postgres/store.go:182-187 | If no claim finds the row locked, every such batch counts: batch floor(3r/k)+1 at the latest has claimed it |
| `Starvation.RepeatedRetryStarves` | internal/postgres/store.go:259-276 | Without that condition the bound fails: while one repeated Retry holds the only eligible row, any number of batches commit without it |
| `Summaries.JoinIsOneToOne` | migrations/000001_init.up.sql:17-29 | Under the primary keys of the queue and the ledger the two left joins produce one row per event of the customer: no fan-out |
| `Summaries.DuplicateFansOut` | migrations/000001_init.up.sql:26-27 | Two ledger rows of one event would fan out: the key is what excludes it |
| `Summaries.StoredSomehow` | migrations/000001_init.up.sql:17-29 | All tables can be stored as rows under those keys |
| `Summaries.SummaryConserved` | internal/postgres/store.go:127-143 | Pending are the customer's queued events with fewer than three failures, failed those with three, processed those in the ledger, and together they are the accepted ones; units, and amount as units times frozen price, are the unbounded sums over the processed ones |
| `Summaries.BatchAdds` | internal/postgres/store.go:127-143 | A batch raises a customer's amount by exactly the charges of the events it posts for that customer |
| `Summaries.OnlyBatchesCharge` | internal/postgres/store.go:127-143 | Admissions and reactivations leave every customer's amount alone |
| `Store.NewWithQueueLimit` | internal/postgres/store.go:30-35 | A store exists exactly for a pool and a limit between 1 and 1000000 |
| `Store.Store.Accept` | internal/postgres/store.go:40-91 | Commits the frozen row and its queue row or neither; the answer decides created, replayed, queue full, conflict or unavailable by the tables before the call |
| `Store.Store.Get` | internal/postgres/store.go:93-121 | The returned event shows the stored usage, is processed exactly if the ledger has it, and shows the queue row's failures, code and generation, or 0, empty and 0 without one; not found only for an id that was never accepted |
| `Store.Store.Retry` | internal/postgres/store.go:250-286 | Retried exactly when the stored generation matches a quarantined row; otherwise an applied no-op, a conflict, not found or invalid, each by the tables before the call |
| `Store.Store.ProcessIndividually` | internal/postgres/store.go:304-342 | The per-event loop settles all ids as the constraint demands, although each refused INSERT aborts the transaction and leaves marks, reports each in place, and ends with the savepoint stack at its base; an infrastructure error fails it |
| `Store.Store.FinishBulk` | internal/postgres/store.go:228-235 | The bulk path ends with the same writes, reports and count as the per-event loop on the same ids |
| `Store.Store.SettleClaimed` | internal/postgres/store.go:209-235 | Fast path equals slow path: one specification of writes, reports and count, whichever path the probe selects |
| `Store.Store.ProcessBatchWithResults` | internal/postgres/store.go:175-246 | Success settles exactly the first eligible rows; each report is a fact about its row: processed exactly if the constraint accepts it, else one failure more with the constraint's code, quarantined exactly at three; the count is the ledger's growth. A failed batch consumes no attempt and posts nothing, unless its commit was ambiguous, and reports request ids only |
| `Store.FirstViolation` | internal/postgres/store.go:212-215 | A bulk INSERT fails exactly when some id violates the constraint, with the error of one such id |
| `Store.IntegrityCodesListed` | internal/postgres/store.go:288-302 | Exactly five SQLSTATEs are per-event failures; every other error is none |
| `Billing.GuardIsExact` | internal/billing/service.go:38 | The division guard holds exactly when the true product exceeds the int64 maximum |
| `Billing.New` | internal/billing/service.go:18-26 | A service exists exactly for a repository and a positive rate |
| `Billing.Service.Accept` | internal/billing/service.go:28-66 | Either branch of the guard gives the same meaning of created, replayed, invalid, conflict, full and unavailable, at the exact price; a created event stores the request id of the context, in lower case, or without one a new id that decodes to the random bytes |
| `Billing.Service.Retry` | internal/billing/service.go:92-104 | The store's retry answer, with malformed ids and generations refused first |
| `Billing.PriceFrozen` | internal/billing/service.go:38-52 | After any later commits, under any positive rate on either side of the guard and at any queue limit, an accepted input replays to its original row with created false |
| `Billing.NewInputDecided` | internal/billing/service.go:35-65 | A new well-formed input is invalid exactly when its true product overflows, refused as full exactly when it fits and the queue is at its limit, and otherwise created at the exact price |
| `Billing.ChangedInputConflicts` | internal/billing/service.go:48-50 | A changed input under an accepted id is a conflict on both branches |
| `Identifiers.ValidateID` | internal/billing/service.go:107-121 | Accepts exactly one to 64 ASCII letters, digits, underscores or hyphens |
| `Workers.BackoffClosedForm` | internal/worker/worker.go:60-61 | After n failures the delay is min(interval * 2^n, max(30s, interval)), within [interval, cap], nondecreasing, and the interval itself after a success |
| `Workers.BackoffNext` | internal/worker/worker.go:83-87 | The halving test takes the closed form from n to n+1 failures exactly, although it halves with truncation |
| `Workers.StreakIsFailingSuffix` | internal/worker/worker.go:79-93 | The failure count behind a delay is the number of failures since the last success |
| `Workers.Worker.Run` | internal/worker/worker.go:50-97 | Over every script of timer, attempt and cancellation events: the exact error cases, the counters, the event and batch log lines of exactly the attempts made, and every delay by the closed form, without 64-bit overflow |
| `Workers.MadeUpTo` | internal/worker/worker.go:62-76 | The attempts made are those of the leading timely ticks, up to the first during which the worker is stopped |
| `Workers.EventLine` | internal/worker/worker.go:105-125 | Which line an event gets: none without an id, unconfirmed after an error, else processed or failed by its outcome |
| `Workers.EventHasLine` | internal/worker/worker.go:105-125 | Every event has its place among the lines of its batch |
| `Workers.BatchLineAfter` | internal/worker/worker.go:76-93 | After its events an attempt is followed by a failure line after an error, by a completion line with the count after a success that posted something, and by none otherwise or when the worker is stopped |
| `Workers.Worker.Start` | internal/worker/worker.go:136-144 | Succeeds exactly when the worker is not running |
| `Workers.Worker.FinishAttempt` | internal/worker/worker.go:159-175 | An attempt is counted once, modulo 2^64, and in exactly one way: a success with its positive count, an error only if no context ended and it is no cancellation, a cancellation otherwise |
| `Workers.Worker.ProcessBatch` | internal/worker/worker.go:99-127 | Appends exactly the log lines of the attempt's events, in order |
| `Workers.AttemptsClassified` | internal/worker/worker.go:159-175 | Attempts are successes plus errors plus cancellations |
| `Workers.CountersReconcile` | internal/worker/worker.go:159-175 | The same over the wrapping 64-bit counters |
| `Workers.CorrelatedEventsLogged` | internal/worker/worker.go:105-125 | Whatever a batch holds, its lines are exactly those of the events that can be logged, in order, each with its own id and outcome; events without an id are passed over and hide no other |
| `Workers.LoggedIdsCanonical` | internal/worker/worker.go:105-110 | Whatever the rows hold, only canonical ids reach the log |
| `Reconciliation.WorkersReconcile` | internal/worker/worker.go:159-175 | Over every schedule, the EventsProcessed counters summed over all workers plus the unreported posts equal the ledger's growth: modulo 2^64 always, exactly while the growth fits |
| `Reconciliation.NoIdLostBeforeLogging` | internal/worker/worker.go:104-126 | Under every schedule and for every batch at every point after its claim: if it is lost there, or finishes, its lines are exactly those of its correlated events, in order, under their stored request ids, whatever legacy rows it holds |
| `RequestIds.ForLogCanonical` | internal/requestid/requestid.go:35-44 | Empty or 32 lower-case hex digits, idempotent, lower-casing on every 32-digit hex string, identity on canonical ids, empty on everything else |
| `RequestIds.DecodeUndoesEncode` | internal/requestid/requestid.go:18 | Decoding undoes encoding on all byte strings |
| `RequestIds.EncodeAt` | internal/requestid/requestid.go:18 | Each byte becomes two lower-case digits, the high one first |
| `RequestIds.DecodeThenEncode` | internal/requestid/requestid.go:39-43 | Decoding succeeds exactly on even-length digit strings, and encoding the result lower-cases |
| `RequestIds.StoredIdsReachTheLog` | internal/billing/service.go:53-61 | Every id the service stores, taken from the context or new, is canonical and reaches the log unchanged |
| `Decoding.DecodeInput` | internal/httpapi/httpapi.go:300-355 | Returns an input exactly on the ten tokens that spell it: one flat object with each of the four keys once, in any order, strings for three of them and an int64 for units, and nothing after it |
| `Decoding.DecodeRetry` | internal/httpapi/httpapi.go:265-296 | Succeeds with g exactly on the four tokens of the one-member object with a non-negative int64 g |
| `Decoding.Decoder.Decode` | internal/httpapi/httpapi.go:335-337 | Reads exactly one value, whose brackets all match, and fails exactly when none starts here |
| `Decoding.ValueBrackets` | internal/httpapi/httpapi.go:335-337 | A value of several tokens is closed by the kind of bracket that opens it and contains no error |
| `Decoding.MeansUnique` | internal/httpapi/httpapi.go:300-355 | A token stream stands for at most one input |
| `Decoding.PermutationsDecodeAlike` | internal/httpapi/httpapi.go:311-345 | Every permutation of four valid members is accepted, and all decode to one input |
| `Decoding.RoundTrip` | internal/httpapi/httpapi.go:300-355 | Decoding the encoding of any input gives that input |
| `Migrations.Catalog.RecoveryUp` | migrations/000002_event_recovery.up.sql:4-11 | Adds the recovery columns with their defaults to every row, and the partial index |
| `Migrations.Catalog.RecoveryDown` | migrations/000002_event_recovery.down.sql:4-16 | Runs exactly when no row has failures or a generation, and otherwise changes nothing |
| `Migrations.Catalog.RequestIdUp` | migrations/000003_request_id.up.sql:4-5 | Adds an empty request id to every row |
| `Migrations.Catalog.RequestIdDown` | migrations/000003_request_id.down.sql:5-12 | Runs exactly when no row has a request id, and otherwise changes nothing |
| `Migrations.QueueUpThenDown` | migrations/000002_event_recovery.down.sql:4-16 | Up then down is permitted and restores the table |
| `Migrations.QueueDownThenUp` | migrations/000002_event_recovery.down.sql:6-8 | Down then up restores the table if and only if the guard permits the down migration |
| `Migrations.RefusalProtectsQueue` | migrations/000002_event_recovery.down.sql:3-8 | A refusal names a row whose failures or generation the round trip would erase |
| `Migrations.UsageUpThenDown` | migrations/000003_request_id.up.sql:4-5 | Up then down is permitted and restores the table |
| `Migrations.UsageDownThenUp` | migrations/000003_request_id.down.sql:7-9 | Down then up restores the table if and only if the guard permits the down migration |
| `Migrations.RefusalProtectsIds` | migrations/000003_request_id.down.sql:3-9 | A refusal names a row whose canonical request id the round trip would erase |

## Findings

- A retry whose lookup runs before its event is accepted can get a successful answer although nothing was
  or had been reactivated (internal/postgres/store.go:259-281). The committed tables are not affected.
  Exact condition: the answer is right under every continuation if and only if the event was accepted when
  the lookup ran, or never can be accepted because a million rows are quarantined at the last generation
  (`Races.RetryJustifiedExactly`).
- "An eligible row with r rows ahead is claimed by batch floor(3r/k)+1" is false if a repeated Retry of that
  row is open while batches claim: SKIP LOCKED passes the row over, however few rows are ahead
  (`Starvation.RepeatedRetryStarves`). Exact condition for one claim to be of use: the row is not locked, or
  at least as many unlocked rows are ahead as the claim can take (`Claims.ClaimAdvances`). The bound holds for
  the batches with such claims, under every schedule (`Fairness.NoStarvation`), and for all batches if no
  claim finds the row locked (`Fairness.NoStarvationUnlocked`).

## Left out

- The claim is one atomic step on current rows; row-by-row locking inside the statement, index scans and foreign-key share locks are not modelled.
- The ledger constraint is a fixed function of the event within one call of the imperative store and an arbitrary verdict per statement in the interleaved machine; which constraint fires is not modelled.
- Time is a logical clock that advances with every statement; `processed_at` is never read and has no column here, and QueueStats with its age in seconds is left out.
- Ids are ordered by character code; the database's collation is not modelled.
- Integer columns are unbounded integers with their ranges as explicit CHECKs; only the worker's durations and counters wrap or are bounded by type.
- Context deadlines, the connection pool, BEGIN failures and rollback errors: all appear as a lost statement or commit.
- `Workers.Worker.Run`: the timer and the context are a script of events; the mutex appears as atomic methods, and two concurrent calls of Run only through the running flag.
- JSON lexing, UTF-8 validation and number syntax: the decoders start from tokens, and a lexical error is a token of its own.
- HTTP routing, authentication, body limits, status codes, metrics text, configuration, process wiring and the load test client: one-branch facts or plumbing.
- Randomness and uniqueness of request ids: only their form is modelled.
- Locking and timing of migrations while other sessions run; migration 1 down, which drops all tables.
- Service.Get and Service.Summary: an id check before the store's operation.
