# Verified model of the durable execution core

The repository is a product foundation whose mutations are durable: one PostgreSQL transaction commits
product rows, the stored answer of the request and an outbox event, and workers deliver the event later
under leases that expire. This project models that core as Dafny state machines and imperative classes
and proves what it guarantees over whole runs. Beside it stand four smaller cores: canonical JSON and its
graph walks, the migration runner, the workspace-cycle search, and two text scanners.

`dafny verify dfyconfig.toml` checks everything.

## How the model is built

Two machines share one pattern. A `State` holds the committed tables, the live transactions and a history
that only grows; a `Step` is one SQL statement, one commit or one tick of the clock; a `Run` is any sequence
of enabled steps, so every interleaving of sessions, every crash (nobody steps for that session again) and
every lost reply is some run. An invariant is kept by every step, and the guarantees are read off it for
every reachable state. The classes that follow the original statement by statement are proved to move along
runs of these machines while other sessions do anything the machine allows between two statements.

- `LedgerMachine`, `LedgerSafety`, `LedgerRefinement`: the idempotency ledger, its invariant, and its
  refinement of an atomic map; `IdempotencyStore` and `DurableMutation` are the imperative code above it.
- `OutboxMachine`, `OutboxSafety`, `OutboxGuarantees`, `OutboxRetries`, `OutboxProgress`: the outbox, its
  invariant, fencing and conservation, when retries are due and what purges take, and the two potential
  arguments; `OutboxStore` and `OutboxWorker` are the imperative code.
- `ReferenceFlow`: probes, created events and workers over the outbox machine; `FlowRuns` relates its runs to
  the outbox's, `DurableProbes` is the delivery handler, which `OutboxWorker` calls.
- `ReferenceApi`: the ledger machine and that flow over one database, with the transactions of the mutation
  interleaved statement by statement; `ReferenceMutation` is one such mutation, from begin to commit.
- `JsonText`, `JsonRoundTrip`, `CanonicalJson`, `JsonGraph`, `JsonWalkers`, `WireAgreement`: JSON text (RFC
  8259, sections 4 to 7), the canonical printer, the walks over object graphs, and the wire contract.
- `Migrations`, `WorkspaceCycles`, `RenameProduct`, `MarkdownMask`: one file each. `Prelude` holds shared
  vocabulary, among it what `ORDER BY ... LIMIT` may answer.

Assumptions, each standing for something outside the code:

- Every SQL statement is atomic, the isolation level is READ COMMITTED, and the clock is monotone. A statement
  that would wait for a row lock is not enabled until the lock is free, or its transaction is rolled back.
  `claim` and `purgeFinalized`, one statement each, are single steps; rows that `SKIP LOCKED` passes over
  belong to a claim that comes before or after in the run.
- `now()` is the start of the transaction. It may lie behind the clock in the ledger's transactions and in
  `append` and `claim`; a statement run outside an explicit transaction sees the clock.
- Claim tokens and event identifiers are random and never repeat; all workers are configured with the same
  `maxAttempts`; a lease is longer than zero (the table's lock-order check).
- The advisory-lock hash is an arbitrary function. SHA-256 is injective where a theorem says so. What a
  `jsonb` column reads back is an arbitrary function of what was stored.
- A zod schema is an arbitrary function from values to values or refusals. Numbers in JSON are identified with
  the text ECMAScript prints for them; `-0` does not occur. The parser reads the compact grammar a printer
  produces, and an object's keys stay in the order of the text.
- Text in the two scanners is a sequence of characters; a character outside the basic plane counts once here
  and twice in UTF-16.

Three results are counterexamples that follow the code, each with what does hold.

- `ReplayCanFail`: a stored body whose keys PostgreSQL reorders can fail the output schema on replay, so a
  committed mutation may answer its own retry with an internal error. `ReplaysKeepExactly`: every replay of
  validated output, through every column that keeps the meaning, passes and means the same exactly for the
  schemas that are blind to key order.
- `AttemptsUnbounded`: `attempt_count` has no bound of its own. `AttemptsExactly`: it is the recorded failures,
  a completion, the leases lost and the running claim, so it stays within the bound on failures plus the leases
  lost, and within that bound when none is lost.
- `NotIdempotent`: a second renaming pass can change a text, although the repository's own test expects none of
  its renamed files to change. `SecondPass`: it changes nothing when every token read in the renamed text is a
  value, and where no rule shortens its key, only then.

## Model

| member | source | states |
|---|---|---|
| LedgerSafety.StepKeeps | packages/backend-postgres/src/postgres-idempotency-store.ts:28-108 | Every statement, commit and rollback of any transaction keeps the ledger invariant: advisory and row locks match their holders, what a transaction has read stays true until it ends, a handler runs only after the former record expired, and the history explains every row |
| LedgerSafety.RunKeeps | packages/backend-postgres/src/postgres-idempotency-store.ts:28-108 | The same for every interleaved run |
| LedgerRefinement.Simulates | packages/backend-postgres/src/postgres-idempotency-store.ts:28-108 | Every interleaved run simulates an atomic map from key to record whose only events are Forget after expiry and the answers Executed, Replay, Conflict and InProgress, in real-time order; replays and conflicts answer from a record that had not expired when the call started |
| LedgerRefinement.OneLiveExecution | packages/backend-postgres/src/postgres-idempotency-store.ts:40-69 | Two committed executions of one key are apart in real time by the expiry of the first, for any lock hash |
| LedgerRefinement.LivesItsTtl | packages/backend-postgres/src/postgres-idempotency-store.ts:91-97 | A stored result expires its ttl after the start of the transaction that stored it |
| LedgerRefinement.RetrySafety | packages/backend-postgres/src/postgres-idempotency-store.ts:71-106 | After any execution and before its stored result expires no call with its key executes; equal requests get its stored status and body, different ones can only conflict, a lost reply included |
| LedgerRefinement.AnswersAreAlive | packages/backend-postgres/src/postgres-idempotency-store.ts:49-88 | What a replay or a conflict answers from is an earlier execution of the key whose result had not expired when the call started |
| LedgerRefinement.FreeAgain | packages/backend-postgres/src/postgres-idempotency-store.ts:49-106 | A committed call that got the lock and started after every earlier execution of its key had expired has executed, however many expired rows were in the way |
| LedgerRefinement.LookupRuns | packages/backend-postgres/src/postgres-idempotency-store.ts:71-90 | The lookup lets the handler run if every result of the key had expired when the call started, and only if every one has expired by now |
| LedgerRefinement.SweepTakes | packages/backend-postgres/src/postgres-idempotency-store.ts:55-69 | A sweep takes expired rows that nobody holds, the oldest first, a hundred or all there are |
| LedgerRefinement.SweepReclaims | packages/backend-postgres/src/postgres-idempotency-store.ts:55-69 | Whatever happens in between, its transaction's commit takes those rows out of the table |
| LedgerRefinement.ExactlyOneEffect | packages/backend-postgres/src/postgres-idempotency-store.ts:71-106 | From any execution on, while calls with its key look before its result expires, it stays the only execution and every success is its replay |
| LedgerRefinement.SuccessHasExecution | packages/backend-postgres/src/postgres-idempotency-store.ts:78-106 | Every success, at any time, is an execution or the replay of an execution of the same request with none in between |
| LedgerRefinement.AllOrNothing | packages/backend-postgres/src/postgres-idempotency-store.ts:90-106 | Product writes appear only at the commit of an execution, all of them, with its ledger record |
| LedgerRefinement.BusyMeansContention | packages/backend-postgres/src/postgres-idempotency-store.ts:40-47 | The try-lock answers in-progress exactly when another live transaction holds a lock with the same hash |
| LedgerRefinement.KeysContendAlone | packages/backend-postgres/src/postgres-idempotency-store.ts:40-44 | With a lock hash free of collisions, and scopes and procedures without colons, two calls contend exactly when their keys are the same |
| LedgerRefinement.InsertNeverCollides | packages/backend-postgres/src/postgres-idempotency-store.ts:90-100 | After the lookup found no row the insert meets none either; only the table's checks can refuse it |
| IdempotencyStore.PostgresIdempotencyStore.Finish | packages/backend-postgres/src/postgres-database.ts:68-93 | Commit done, commit done with its reply lost, or commit refused and rolled back: the history says which, and only the first returns the outcome |
| IdempotencyStore.PostgresIdempotencyStore.Decide | packages/backend-postgres/src/postgres-idempotency-store.ts:40-88 | Try-lock, delete, sweep and lookup, waiting for other transactions' rows as long as they may, end in a running handler, a decision, or a rollback without trace, and in that only when the call waited for a row in vain |
| IdempotencyStore.PostgresIdempotencyStore.ExecuteAndStore | packages/backend-postgres/src/postgres-idempotency-store.ts:90-100 | The handler's writes and its stored result are in the transaction together, exactly when the handler returned a result the ledger's constraints allow; otherwise the transaction is gone, with the error that says why |
| IdempotencyStore.PostgresIdempotencyStore.RunAtomically | packages/backend-postgres/src/postgres-idempotency-store.ts:28-108 | The database moves along a run of the machine; a returned outcome is committed and recorded, an execution carries exactly the handler's writes and lives its ttl from a start inside the call, an error leaves nothing unless the commit's own reply was lost, and each kind of error has its one cause |
| DurableMutation.Invoke | apps/api/src/shared/application/create-idempotent-rpc-handler-invoker.ts:32-71 | Outcomes become results and errors: a body is the validated output of this code, committed with all its writes, or a replay's; a conflict is recorded with its retryability; a thrown or refused call leaves no trace, and throws only for a cause it may have |
| DurableMutation.OnlyReplaysFail | packages/rpc-server/src/execute-rpc-procedure.ts:167-177 | A body that fails the second output validation comes from a replay, never from a fresh execution |
| DurableMutation.RunInvoker | packages/rpc-server/src/execute-rpc-procedure.ts:157-218 | Invocation, second validation and error mapping: what each status says about the ledger |
| DurableMutation.ExecuteMutation | packages/rpc-server/src/execute-rpc-procedure.ts:56-219 | The whole cascade for a mutation, reply by reply: each guard's own error and an untouched database; successes carry the code's committed output or replayed data, validated again; conflicts are in the ledger or the handler's own; internal errors have a cause among those it may have, and leave no trace save for a lost commit reply or a refused replay |
| DurableMutation.ReplayOrConflict | packages/backend-core/src/idempotency/execute-idempotently.ts:43-63 | Reusing a key within the lifetime of any of its results replays exactly when the two inputs mean the same JSON value, and conflicts exactly when they do not |
| DurableMutation.InvokedTwice | packages/backend-core/src/idempotency/execute-idempotently.ts:30-75 | Two calls under one scope, procedure and key: once the first has executed, the second, answered within the ttl, carries its body exactly when the two inputs mean the same, and conflicts exactly when they do not |
| DurableMutation.AnsweredWithinScope | packages/backend-postgres/src/postgres-idempotency-store.ts:21-23 | Calls under another scope, procedure or key never answer |
| DurableMutation.AcceptedIsStorable | packages/rpc-server/src/execute-rpc-procedure.ts:76-100 | What the key check of the server accepts passes the constraints of the ledger's table |
| OutboxSafety.StepKeeps | packages/backend-postgres/src/postgres-outbox-store.ts:57-212 | Append, claim, complete, fail, requeue, purge and time keep the outbox invariant: lock columns are those of the last unsettled claim, tokens are unique, settlements follow their claim, ownership periods are apart, failures are bounded, messages are conserved |
| OutboxGuarantees.SettlementHasClaim | packages/backend-postgres/src/postgres-outbox-store.ts:110-155 | Every settlement belongs to an earlier claim with its message and token and falls inside the lease |
| OutboxGuarantees.NothingBetween | packages/backend-postgres/src/postgres-outbox-store.ts:77-155 | Between a claim and its settlement nothing else has happened to the message |
| OutboxGuarantees.SettledOnce | packages/backend-postgres/src/postgres-outbox-store.ts:110-155 | A claim token settles at most once |
| OutboxGuarantees.StaleTokenRefused | packages/backend-postgres/src/postgres-outbox-store.ts:110-155 | After a later claim, settlement or requeue an older token changes nothing, whoever presents it |
| OutboxGuarantees.GuardIsOwnership | packages/backend-postgres/src/postgres-outbox-store.ts:115-116 | The columns tested by complete and fail accept a claim's token exactly when nothing has happened to the message since that claim and its lease runs |
| OutboxGuarantees.PeriodsDisjoint | packages/backend-postgres/src/postgres-outbox-store.ts:84-103 | Ownership periods of successive claims of one message never overlap |
| OutboxGuarantees.FailuresWithinBound | packages/backend-core/src/messaging/outbox-worker.ts:82-91 | Between an append or requeue and the next requeue at most maxAttempts failures are recorded, and a dead letter has had at least maxAttempts attempts, however many leases are lost |
| OutboxGuarantees.AttemptsUnbounded | packages/backend-postgres/src/postgres-outbox-store.ts:84-103 | attempt_count passes any number: a reachable state for every n |
| OutboxGuarantees.AttemptsExactly | packages/backend-postgres/src/postgres-outbox-store.ts:95-155 | attempt_count is the failures recorded, the completion, the leases lost and the running claim since the append or last requeue |
| OutboxGuarantees.AttemptsWithinBound | packages/backend-postgres/src/postgres-outbox-store.ts:95-155 | It exceeds the bound on failures by at most the leases lost, and not at all when none is lost |
| OutboxGuarantees.EveryMessageAccounted | packages/backend-postgres/src/postgres-outbox-store.ts:57-212 | Every appended message is exactly one of pending, processed, dead-lettered or purged, and finalized ones hold no lock |
| OutboxGuarantees.RowTellsItsHistory | packages/backend-postgres/src/postgres-outbox-store.ts:95-155 | attempt_count is the number of claims since the append or last requeue, and the processed, dead-letter and due times and the error are those of the message's last change |
| OutboxGuarantees.PurgeTakesFinalized | packages/backend-postgres/src/postgres-outbox-store.ts:181-200 | A message leaves the table only by a purge, and only when finalized before the limit |
| OutboxGuarantees.ProcessedIsFinal | packages/backend-core/src/messaging/outbox-worker.ts:80-91 | No step changes the row of a processed message, so the fallback fail cannot undo a committed complete |
| OutboxRetries.NoEarlyRetry | packages/backend-postgres/src/postgres-outbox-store.ts:124-146 | No claim of a message that failed comes before the failure's time plus its retry delay, in any run |
| OutboxRetries.DueExactly | packages/backend-postgres/src/postgres-outbox-store.ts:84-95 | Until something else happens to it a failed message is claimable exactly from that time on, a requeued one from its requeue on, a claimed one not before its lease has run out, a finalized one never |
| OutboxRetries.KeepsPlace | packages/backend-postgres/src/postgres-outbox-store.ts:84-103 | A message keeps its time, and so its place, and its event through any claims and lost leases, until it fails or is requeued |
| OutboxRetries.FailureSays | packages/backend-postgres/src/postgres-outbox-store.ts:124-155 | A failure is recorded by the current owner alone, at the clock, with its verdict and the time of its retry |
| OutboxRetries.PurgeTakesOldest | packages/backend-postgres/src/postgres-outbox-store.ts:181-200 | A purge takes messages whose log says that they were processed or died before the limit for their kind, the longest finalized first, up to its batch or all there are, and nothing else |
| OutboxProgress.SettlementsBounded | packages/backend-core/src/messaging/outbox-worker.ts:44-101 | Without new work all workers together record at most the potential, one plus the attempts left for each pending message, whatever they interleave or lose |
| OutboxProgress.Drains | packages/backend-core/src/messaging/outbox-worker.ts:44-67 | As many settling rounds as the potential leave nothing pending |
| OutboxProgress.ClaimFindsWork | packages/backend-postgres/src/postgres-outbox-store.ts:84-95 | A claim returns something whenever everything pending is due and unleased |
| OutboxProgress.PauseMakesDue | packages/backend-core/src/messaging/outbox-worker.ts:29-53 | After any run whose leases and retry delays stay within a span, a pause of that length makes everything pending due, so the next claim takes something if anything is pending |
| OutboxProgress.OvertakingBounded | packages/backend-postgres/src/postgres-outbox-store.ts:84-103 | A due message is passed over by at most floor(first / batch) claims that could have taken it, where first counts the messages ahead of it, appends of transactions begun before it fell due, and leases lost since |
| OutboxStore.CountsPartition | packages/backend-postgres/src/postgres-outbox-store.ts:157-179 | Pending, dead-lettered and processed counts add up to the table |
| OutboxStore.PostgresOutboxStore.Append | packages/backend-postgres/src/postgres-outbox-store.ts:57-75 | Accepts exactly payloads that are JSON, unused identifiers and positive versions; then the machine's append, otherwise no change |
| OutboxStore.PostgresOutboxStore.Claim | packages/backend-postgres/src/postgres-outbox-store.ts:77-108 | The update of the selected rows is one claim of the machine; the returned messages are the logged claims, in order, with the events of the table; refused it changes nothing, and with its reply lost the leases are taken and nobody knows |
| OutboxStore.PostgresOutboxStore.Complete | packages/backend-postgres/src/postgres-outbox-store.ts:110-122 | The new table, and success exactly when the caller owned the message and the reply arrived |
| OutboxStore.PostgresOutboxStore.Fail | packages/backend-postgres/src/postgres-outbox-store.ts:124-155 | The same for a failure with its retry time or dead letter, for any token and verdict; a worker's verdict keeps the invariant |
| OutboxStore.PostgresOutboxStore.Inspect | packages/backend-postgres/src/postgres-outbox-store.ts:157-179 | The counts are those of the table, and the oldest pending time is the minimum |
| OutboxStore.PostgresOutboxStore.PurgeFinalized | packages/backend-postgres/src/postgres-outbox-store.ts:181-200 | One purge of the machine, with the number of rows it removed, or nothing when it is refused |
| OutboxStore.PostgresOutboxStore.RequeueDeadLetter | packages/backend-postgres/src/postgres-outbox-store.ts:202-212 | A dead letter starts a new epoch; everything else is left alone, and the result says which |
| OutboxWorker.RetryDelayBounds | packages/backend-core/src/messaging/outbox-worker.ts:29-33 | Delays lie between half the ceiling and the ceiling; the ceiling grows with the attempts and stays within 250 to 60000 ms |
| OutboxWorker.CeilingDoubles | packages/backend-core/src/messaging/outbox-worker.ts:29-31 | The ceiling starts at 250 ms and doubles with each attempt until it reaches a minute |
| OutboxWorker.EveryDelayDrawn | packages/backend-core/src/messaging/outbox-worker.ts:32-32 | Every delay in the upper half of the ceiling is drawn by some random number |
| OutboxWorker.LeaseStaysLost | packages/backend-core/src/messaging/outbox-worker.ts:69-101 | Ownership, once lost, never comes back to the same claim |
| OutboxWorker.HandlerReturnsExactly | apps/api/src/modules/reference/infrastructure/create-reference-durable-probe-outbox-handler.ts:7-16 | On an appended created event the handler's statement succeeds exactly when the probe is delivered already or the event's own time has come |
| OutboxWorker.HandlerFailsEarly | apps/api/src/modules/reference/infrastructure/create-reference-durable-probe-outbox-handler.ts:7-16 | So an executed statement that fails does so before the event's time |
| OutboxWorker.OutboxWorker.CallHandler | packages/backend-core/src/messaging/outbox-worker.ts:69-79 | The registered handler runs, the probes' as its own statement, which may be refused or take effect with its reply lost; without a handler the delivery fails |
| OutboxWorker.OutboxWorker.CompleteOrFail | packages/backend-core/src/messaging/outbox-worker.ts:80-82 | Only after the handler returned is the completion sent; sent, it leaves the lease to nobody; without its acknowledgement the fallback follows |
| OutboxWorker.OutboxWorker.RecordFailure | packages/backend-core/src/messaging/outbox-worker.ts:82-91 | The fallback either records this claim's failure with the right verdict and the drawn delay, or rejects, with the reason that the lease or the reply was lost |
| OutboxWorker.OutboxWorker.DeliverAll | packages/backend-core/src/messaging/outbox-worker.ts:56-58 | Deliveries interleave in any order with each other and with other sessions, and all end resolved or rejected as their phases promise |
| OutboxWorker.OutboxWorker.RunOnce | packages/backend-core/src/messaging/outbox-worker.ts:44-67 | One round with the probes' handler is a run of the end-to-end flow; a claim that throws ends it, its leases taken if its commit went through; otherwise resolved deliveries have settled their claim, processed exactly when handler and completion succeeded, it throws exactly the rejections' reasons, and a clean round that claimed something settled something |
| OutboxWorker.OutboxWorker.PollOnce | apps/api/src/worker.ts:80-97 | One poll: wait, maintenance if due, and a round unless the maintenance throws, all along one quiet run; a clean round that found everything due and claimed nothing leaves nothing pending |
| OutboxWorker.PollPays | apps/api/src/worker.ts:79-108 | No poll adds potential, and a clean one, which settled something or found everything due, takes some if there is any |
| OutboxWorker.OutboxWorker.Poll | apps/api/src/worker.ts:79-108 | The polling loop returns the result of every round and the states they claimed in, which lie on one quiet run; once as many of those rounds were clean as the potential says, nothing is pending, whatever the other rounds, other workers and the clock did |
| FlowRuns.RunProjects | packages/backend-core/src/messaging/outbox-worker.ts:44-101 | A run of the flow is, for the outbox alone, a run of its machine, so its guarantees hold there |
| ReferenceFlow.FlowStepKeeps | apps/api/src/modules/reference/application/create-reference-durable-probe.ts:19-33 | Mutations, deliveries and every outbox step keep the end-to-end invariant |
| ReferenceFlow.ProbesMatchEvents | apps/api/src/modules/reference/application/create-reference-durable-probe.ts:21-31 | In every reachable state committed probes and appended created events correspond one to one, and type, version, aggregate, time and payload of the event are those of the probe's row |
| ReferenceFlow.ProcessedMeansDelivered | apps/api/src/modules/reference/infrastructure/create-reference-durable-probe-outbox-handler.ts:5-18 | In every run of the flow, which workers follow by `RunOnce`, a processed created event means a delivered probe, purged rows included |
| ReferenceFlow.UndeliveredIsAccounted | packages/backend-core/src/messaging/outbox-worker.ts:69-101 | An undelivered probe's event is unprocessed and still in the table, or was purged without ever being processed |
| ReferenceFlow.DeliveredAfterClaim | apps/api/src/modules/reference/infrastructure/create-reference-durable-probe-outbox-handler.ts:5-18 | A delivered probe had its event claimed by the time it was delivered, and that time lies between creation and now |
| ReferenceFlow.FirstDeliveryStays | apps/api/src/modules/reference/infrastructure/create-reference-durable-probe-outbox-handler.ts:11-13 | Over any run a probe keeps its contents and its first delivery time |
| ReferenceApi.CommitIsCreate | apps/api/src/modules/reference/application/create-reference-durable-probe.ts:19-33 | Committing what the handler wrote statement by statement is the one step that creates the probe with its event |
| ReferenceApi.ApiStepKeeps | packages/backend-postgres/src/postgres-database.ts:68-93 | Statements of any mutation, commits with and without reply, rollbacks, deliveries and time keep both machines in states of their own runs, and the tables in step with the committed writes |
| ReferenceApi.ApiRefines | packages/backend-postgres/src/postgres-idempotency-store.ts:28-108 | Every run of the whole, from any state it can reach, is a run of the ledger machine and a run of the flow |
| ReferenceApi.FirstDeliveryStaysApi | apps/api/src/modules/reference/infrastructure/create-reference-durable-probe-outbox-handler.ts:11-13 | Over any run of mutations, workers and crashes a probe keeps its contents and its first delivery time |
| ReferenceApi.SimulatesApi | packages/backend-postgres/src/postgres-idempotency-store.ts:28-108 | And from any such state on the ledger simulates the atomic map |
| ReferenceApi.CommittedOneToOne | apps/api/src/modules/reference/application/create-reference-durable-probe.ts:21-31 | Over all committed writes, ambiguous commits included, every probe is followed by its event and every event follows its probe, no probe comes twice, and the tables hold exactly them |
| ReferenceApi.UncommittedUnseen | packages/backend-postgres/src/postgres-database.ts:68-93 | A probe written but not committed is in no table, nor is its event, and a rollback changes none |
| ReferenceMutation.CreateReferenceDurableProbe.CreateProbe | apps/api/src/modules/reference/application/create-reference-durable-probe.ts:19-33 | Insert, waiting for another transaction's row as long as it may, then append, with other sessions in between: both writes are in the transaction, the event with the probe object as its payload, or it is rolled back, exactly as the constraints, the wait and the connection had it |
| ReferenceMutation.CreateReferenceDurableProbe.Conclude | packages/backend-postgres/src/postgres-database.ts:68-93 | The commit publishes record, probe and event together, with or without its reply, or nothing |
| ReferenceMutation.CreateReferenceDurableProbe.Mutate | packages/backend-postgres/src/postgres-idempotency-store.ts:28-108 | The mutation from begin to commit is a run of the whole: a result is stored only after both writes, an execution carries exactly the probe and an event that says what the probe is, and both are in their tables; an error has its cause and leaves nothing unless the commit's reply was lost |
| DurableProbes.ReferenceDurableProbes.HandleCreated | apps/api/src/modules/reference/infrastructure/create-reference-durable-probe-outbox-handler.ts:5-18 | Returns exactly when its statement's reply arrives and version, row and row check are in order; executed at all, it sets only a missing delivery time |
| JsonRoundTrip.StringRoundTrip | packages/backend-core/src/idempotency/idempotency-store.ts:41-43 | Every string, lone surrogates and control characters included, is read back from its quoted form |
| JsonRoundTrip.QuotedIsWellFormed | packages/backend-core/src/idempotency/idempotency-store.ts:41-43 | A quoted string holds no control character and no lone surrogate |
| JsonRoundTrip.QuotedIsShortest | packages/backend-core/src/idempotency/idempotency-store.ts:41-43 | Nothing well formed that reads back as the string is shorter than its quoted form |
| JsonRoundTrip.ValueRoundTrip | packages/rpc/src/index.ts:66-70 | Every tree is read back from its text with whatever follows left over, so the printer is uniquely decodable |
| JsonRoundTrip.NothingFollows | packages/rpc/src/index.ts:66-70 | Text with anything behind the value is refused |
| JsonRoundTrip.StringifyInjective | packages/rpc/src/index.ts:76-78 | Equal texts mean equal trees |
| CanonicalJson.StableTextParses | packages/backend-core/src/idempotency/idempotency-store.ts:40-77 | The canonical text parses back to a tree with the same meaning |
| CanonicalJson.StableTextDecides | packages/backend-core/src/idempotency/idempotency-store.ts:40-77 | Two trees print the same canonical text exactly when they are equal up to key order |
| CanonicalJson.RequestHashDecides | packages/backend-core/src/idempotency/idempotency-store.ts:79-81 | The same for their hashes |
| CanonicalJson.TextLeExactly | packages/backend-core/src/idempotency/idempotency-store.ts:70-72 | Keys are ordered by the first code unit in which they differ, a prefix before what it begins |
| JsonWalkers.AssertDurableJsonValue | packages/backend-core/src/messaging/durable-json.ts:7-72 | Terminates on every finite heap, shared or cyclic, and accepts exactly the values that unfold to a finite JSON tree |
| JsonWalkers.DurableJsonCheck.Visit | packages/backend-core/src/messaging/durable-json.ts:13-69 | Accepts exactly what unfolds to a tree clear of the current path, and restores the path |
| JsonWalkers.AssertRpcJsonValue | packages/rpc/src/index.ts:20-62 | On any heap, accepts exactly what array iteration and object values show as a finite JSON tree |
| JsonGraph.ElementsSeen | packages/rpc/src/index.ts:49-52 | What iteration sees of an array: the element as it answers, and the stand-in where there is none |
| JsonGraph.NamesSeen | packages/rpc/src/index.ts:53-57 | What object values see: the enumerable properties under string keys, all of them, in order, as they answer |
| JsonWalkers.DurableIsRpc | packages/backend-core/src/messaging/durable-json.ts:36-66 | The durable check is the stricter one, and both see the same tree |
| JsonWalkers.StableJsonText | packages/backend-core/src/idempotency/idempotency-store.ts:40-81 | The printer with its set of seen objects gives a text exactly for what it sees as a finite tree, a hole of an array standing for a primitive; the text is the tree's with nothing printed for a hole, and without holes the canonical text of the tree |
| WireAgreement.StableIsFixedPoint | packages/rpc/src/index.ts:64-79 | Wire stability is exactly being a fixed point of the schema |
| WireAgreement.ValidatedTwice | packages/rpc-server/src/execute-rpc-procedure.ts:40-54 | Validated output is accepted again, unchanged |
| WireAgreement.ReplayAcceptedExactly | packages/rpc-server/src/execute-rpc-procedure.ts:177-177 | A replay passes exactly when the schema maps the stored form to one of its fixed points |
| WireAgreement.ReplayKeepsMeaning | packages/rpc-server/src/execute-rpc-procedure.ts:167-177 | For a schema blind to key order a replay passes and means the same wherever the column kept the meaning |
| WireAgreement.ReplaysKeepExactly | packages/rpc-server/src/execute-rpc-procedure.ts:167-177 | Every replay of validated output through every column that keeps meaning passes and means the same exactly for schemas blind to key order |
| WireAgreement.ReplayCanFail | packages/backend-postgres/src/postgres-idempotency-store.ts:83-87 | Otherwise a committed mutation can fail its own replay: a schema and an output |
| WireAgreement.InputAgreement | packages/rpc-client/src/call-rpc-procedure.ts:47-87 | The server accepts, as the same value, every input the client accepted |
| WireAgreement.SuccessAgreement | packages/rpc-client/src/call-rpc-procedure.ts:100-152 | The client accepts every success the server sends and returns the same data |
| WireAgreement.FailureAgreement | packages/rpc-client/src/call-rpc-procedure.ts:100-120 | Every error reply reaches the client with code, message, details and retryability |
| WireAgreement.ClientVerdicts | packages/rpc-client/src/call-rpc-procedure.ts:100-152 | Of any response: what the client returns as data, a successful envelope says and the schema leaves as it is; what it throws as the server's error, an error envelope says; anything else is retryable exactly after a server error |
| Migrations.SuccessAppliesUnapplied | packages/backend-postgres/src/run-sql-migrations.ts:78-107 | A successful run executes exactly the files the journal does not know, once each, in order |
| Migrations.SuccessExecutesUnapplied | packages/backend-postgres/src/run-sql-migrations.ts:96-103 | Its schema is what those files make of the old one |
| Migrations.ResumeSame | packages/backend-postgres/src/run-sql-migrations.ts:78-107 | After a run that broke off anywhere, the next one ends as the first would have |
| Migrations.ResumableRuns | packages/backend-postgres/src/run-sql-migrations.ts:70-107 | Any number of broken runs followed by a whole one give the schema, journal and applied files of one uninterrupted run |
| Migrations.EditedStops | packages/backend-postgres/src/run-sql-migrations.ts:87-92 | A run that meets an edited applied file executes nothing from that file on |
| Migrations.EditedNeverSucceeds | packages/backend-postgres/src/run-sql-migrations.ts:87-92 | One edited applied file keeps every run from succeeding |
| Migrations.RacingRunners | packages/backend-postgres/src/run-sql-migrations.ts:48-107 | Any number of runners interleaved under the advisory lock, broken off anywhere: the database is that of one run so far, and of one whole run once any of them succeeds |
| Migrations.MigrationRunner.RunSqlMigrations | packages/backend-postgres/src/run-sql-migrations.ts:26-115 | Whatever befalls a run and those before it, a prefix of the files has taken effect and the lock is free; success means the whole uninterrupted run; an invalid namespace and a directory without files are refused, exactly |
| WorkspaceCycles.OrderMeansAcyclic | scripts/check-architecture.mjs:380-408 | A topological order leaves no closed walk |
| WorkspaceCycles.CycleDetector.Visit | scripts/check-architecture.mjs:383-404 | Terminates, restores path and stack, and settles the edge it came by: its end is finished or a reported cycle is closed |
| WorkspaceCycles.CycleDetector.Check | scripts/check-architecture.mjs:380-408 | Reports only closed simple paths; cutting their closing edges leaves a graph with a topological order; reports nothing exactly when there is no cycle |
| RenameProduct.RewritesTheReading | scripts/rename-product.mjs:106-118 | The output is the rewriting of the one leftmost-longest reading of the source |
| RenameProduct.RewrittenExactly | scripts/rename-product.mjs:106-117 | A value stays as it is, even when it is a key too; any other key becomes what its last rule says |
| RenameProduct.ReadingUnique | scripts/rename-product.mjs:111-115 | There is only one such reading |
| RenameProduct.ScanLeftmostLongest | scripts/rename-product.mjs:111-115 | The global match over tokens sorted by length finds it |
| RenameProduct.ScanText | scripts/rename-product.mjs:115-117 | Its pieces concatenate back to the source |
| RenameProduct.ReplacesLineByLine | scripts/rename-product.mjs:106-118 | Lines are rewritten independently when no rule spans lines |
| RenameProduct.FixedExactly | scripts/rename-product.mjs:106-118 | A text stays as it is when every token read in it is a value; where no rule shortens its key, only then |
| RenameProduct.SecondPass | scripts/rename-product.mjs:106-118 | The same of a renamed text: when a second pass changes nothing, for any source |
| RenameProduct.StaysByChance | scripts/rename-product.mjs:106-118 | With a shortening rule a text may stay although keys are read in it: rules and a text |
| RenameProduct.RenameTwice | scripts/rename-product.mjs:106-118 | On tokens joined by newlines each becomes its value and a second pass changes nothing, values that contain keys included |
| RenameProduct.NotIdempotent | scripts/rename-product.mjs:106-118 | On other text a second pass can change something: a rule and a text |
| RenameProduct.NoRules | scripts/rename-product.mjs:106-118 | With no rules the empty pattern intersperses every text with "undefined" |
| MarkdownMask.CommentsMasked | scripts/check-markdown-links.mjs:10-10 | An opening that is left in the masked text has no closing after it |
| MarkdownMask.MasksTaken | scripts/check-markdown-links.mjs:10-29 | Both replacements blank exactly the regions a global match takes: each where the pattern first matches, a comment up to its first closing, a code span opened by as many backticks as have a closing on the line, up to the first one |
| MarkdownMask.TakenOnce | scripts/check-markdown-links.mjs:10-29 | There is one way to take them |
| MarkdownMask.OnlyCommentsMasked | scripts/check-markdown-links.mjs:10-10 | A character that changes lies in a comment, which ends at its first closing |
| MarkdownMask.InsideFence | scripts/check-markdown-links.mjs:12-28 | A line is inside a fence exactly when a line before it opened one that no line between closes |
| MarkdownMask.MarkerExactly | scripts/check-markdown-links.mjs:13-13 | A line starts with a fence marker exactly when it has at most three spaces and then a whole run of three or more backticks or tildes |
| MarkdownMask.ClosesExactly | scripts/check-markdown-links.mjs:15-20 | A line closes a fence exactly when it has at most three spaces, at least as many of the same mark, and only spaces after them |
| MarkdownMask.CodeMasked | scripts/check-markdown-links.mjs:29-29 | Backticks left on a line cannot form a code span |
| MarkdownMask.OnlyCodeMasked | scripts/check-markdown-links.mjs:29-29 | A character that changes lies in a code span that ends at its first closing, opened by as many backticks as have one |
| MarkdownMask.WithoutExamples | scripts/check-markdown-links.mjs:7-32 | The comments are blanked and nothing else; then each line is blank when it is a marker or inside a fence, and otherwise loses its code spans and nothing else; length and newlines are kept and no closed comment is left |
| MarkdownMask.LinkExactly | scripts/check-markdown-links.mjs:42-45 | A link is found at a place exactly when the characters there have the shape of one, and it is the one whose target the first fitting alternative gives |
| MarkdownMask.LinksComplete | scripts/check-markdown-links.mjs:42-45 | The scan misses no place where a link starts, except inside a link it found |
| MarkdownMask.InlineLinks | scripts/check-markdown-links.mjs:40-45 | The links of the prose are those a global match finds: in order, without overlap, no place of a link's shape left out; each stands at the same offsets, on the same line, in the source |

## Left out

- Tenant isolation: `installTenantTransactionContext` and row-level security live in PostgreSQL, not in this code.
- Bodies that `jsonb` refuses (NUL characters, lone surrogates): the model's column stores every tree.
- Integer widths: `attempt_count` and the timestamps are unbounded here.
- Queries and request-identifier resolution: calls that never reach the ledger.
- `isJsonContentType`: a parameter, since the grammar of media types would only add easy members.
- The transport of `callRpcProcedure` (headers, network errors, abort): only what is sent and how an answer is read.
- AssertRpcJsonValue: a getter answers the same value each time it is read.
- SecondPass: exact where no rule shortens its key; a shortening rule can make up for a lengthening one, so that there a text may stay although keys are read in it (`StaysByChance`).
- Observers, logs and metrics of the worker, and the effect of handlers other than the reference one.
- MigrationRunner.RunSqlMigrations: the journal table is there from the start, and a file's SQL neither ends its transaction nor touches the journal.
- File names, sorting and reading in the migration runner: the files are given in order with distinct names.
- Manifest rules of the architecture checker other than the cycle search.
- `replaceProductFile` and the list of product rules; reference-style links and `linkTarget` of the Markdown checker.
