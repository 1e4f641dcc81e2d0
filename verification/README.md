# Customer and opportunity services: a verified model

This project models the persistent state machines of the customer and opportunity services and three
algorithms that stand beside them, and proves what each of them keeps over every run.

| module | what it models |
|---|---|
| Splitter, SplitterLaws, SplitterGrammar | the migration lexer that cuts a SQL file into statements |
| MigrationRunner, MigrationSafety, MigrationOutcomes | the production migration runner with its RUNNING/APPLIED checkpoints, crashes and lock |
| ContractTransfer, ContractLedger, ContractLease | the contract transfer outbox: tokens, leases, retries and the attempt ledger |
| FilingSubmission, FilingSafety, FilingEffects | a filing, its submission outbox and its receipt, between the worker and the filing service |
| AlertStore, AlertLaws, AlertEffects, AlertScan | the opportunity alert scanner: lease, keyset pages, alerts and their outbox, delivery |
| RateLimiter, RateLimiterSweep | the fixed-window limiter of the portal's sign-in |
| Reconciliation | the identity reconciliation run and its findings |
| Compensation, CompensationLaws, CompensationEffects | the portal invite compensation tasks and the identity links they write |
| OwnerNotification, OwnerNotificationLaws, OwnerNotificationEffects | owner-change events, audit evidence and notifications |
| ProjectSync, ProjectChain, ProjectEffects | the cursor synchronisation of portal projects |
| AuditBuffer, AuditLaws | the response that mandatory auditing holds back, and the middleware around it |
| ClaimsCatalog, ClaimsCatalogLaws, ClaimsCatalogMeaning | the canonical role and permission catalog |
| Wrappers | Option, Result and the decimal form of a key |

## How the model is built

A database is the fields of a class, and each transaction is one method that says what the whole new
state is, as a function of the old one. `Do` interleaves those transactions, for any number of workers,
with the steps of everybody else: lease expiry, takeovers, crashes after any command, the services that
write the same rows, owners' and administrators' actions. A crashed worker just takes no more steps.
Laws about `DoAll` hold of every sequence of steps. A loop that spans several transactions (`Migrate`,
`Scan`, `RunOnce`, `ProcessBatch`) is a method with the source's loop; its own contract or a lemma
(`DriveIsWorldRun`, `PollIsWorldRun`, `BatchKeeps`) carries the laws over to it.

Besides what every run keeps, each model says what its steps mean without its own definitions: the splitter
by a grammar that every text belongs to, the leases, verdicts, retries and records by the columns, the
clock and the answers they depend on (`SplitterGrammar`, `MigrationOutcomes`, `ContractLease`, `AuditLaws`,
`ClaimsCatalogMeaning` and the modules called Effects).

Assumed throughout:

- SHA-256 digests and the JSON encoding are injective; random tokens never repeat.
- Transactions are atomic and isolated; FOR UPDATE SKIP LOCKED hands out any eligible unlocked row.
- Where a lease is compared with the clock the workers read one clock; times are integers, in the unit of
  the column.
- Worker names are distinct and each worker handles its claims one at a time where the fence is the
  worker's name.
- Text is a sequence of Unicode scalar values; the source reads bytes, which is the same for valid UTF-8.

Where the code does less than its documentation might suggest, the model follows the code and a lemma
says exactly when the property holds:

- A splitter that trims more characters than it ignores: `ResplitIff`, `ResplitJoinedIff`,
  `VerticalTabCounterexample`.
- Statements that end in a line comment: `SemicolonRoundTrip`.
- The operator's retry of a dead contract transfer resets its count but keeps its attempt rows, so the
  unique attempt key blocks every later settlement and the event is delivered at each lease expiry:
  `AcceptedIffNeverRequeued`, `RequeuedNeverSettles`, `RequeuedIsDeliveredForever`, `RequeueRun`.
- Rate-limiter timestamps are read before the lock: `SweepingShows`, `SweepingShowsOnlyOvertaken`.
- The quota of one window length, which two neighbouring buckets may nearly double: `SlidingBound`,
  `SlidingBoundIsTight`.
- Clashing compensation numbers: `SecondChildIsOwn`.
- ACTIVE links that a late mapping result moves back to PENDING: `ActiveReverts`, `ActiveRevertsRun`.
- A short write to the spill file that is released and recorded as a success: `WholeResponseIff`,
  `ShortWriteCounterexample`.

## Model

| member | source | states |
|---|---|---|
| Splitter.SplitStatements | internal/migrationplan/statements.go:11-119 | The index loop with its lookahead, skips and per-state flags returns exactly what the per-character reader specifies: the trimmed token-bearing pieces in order, NoStatements if there are none, and the two unterminated errors exactly when the reader ends in a block comment or in a quote |
| Splitter.AppendStatement | internal/migrationplan/statements.go:20-31 | A piece is appended, trimmed, if and only if it holds a token |
| Splitter.StepOne | internal/migrationplan/statements.go:33-97 | One plain iteration of the loop keeps the loop and the per-character reader in step, including where a cut is made |
| Splitter.StepPair | internal/migrationplan/statements.go:33-97 | An iteration that consumes two characters keeps them in step as well |
| Splitter.TokenSnoc | internal/migrationplan/statements.go:76-107 | Whether a piece holds a token, when one more character is read |
| Splitter.TokenPair | internal/migrationplan/statements.go:33-97 | A comment opener or a doubled quote changes whether a piece holds a token exactly as the flag does |
| SplitterLaws.SegmentsRebuild | internal/migrationplan/statements.go:26-31 | The pieces joined by semicolons are the file: nothing is lost or invented |
| SplitterLaws.CutsAreBoundaries | internal/migrationplan/statements.go:76-97 | A position is where a piece ends if and only if it is a semicolon read outside quotes and comments |
| SplitterLaws.SegmentsShape | internal/migrationplan/statements.go:26-119 | No piece contains a cut; every piece but the last ends outside quotes and comments, the last ends where the file does |
| SplitterLaws.SegmentsConcat | internal/migrationplan/statements.go:26-31 | Where the reader is outside at the seam, a concatenation splits into the pieces of both texts with the two at the seam joined |
| SplitterLaws.ResplitExact | internal/migrationplan/statements.go:26-31 | A returned statement splits to exactly itself if and only if trimming left it a token, for every input |
| SplitterLaws.TrimmedToken | internal/migrationplan/statements.go:20-31 | Trimming leaves a piece a token if and only if one lies inside its surrounding white space |
| SplitterLaws.ResplitIff | internal/migrationplan/statements.go:11-119 | Every statement of a file splits to exactly itself if and only if every piece with a token has one inside its surrounding white space |
| SplitterLaws.ResplitEach | internal/migrationplan/statements.go:26-31 | If the only white space of the file is space, tab, CR and LF, every returned statement splits to exactly itself |
| SplitterLaws.NewlineRoundTrip | internal/migrationplan/statements.go:11-119 | Any list of statements joined by a semicolon on a line of its own splits back into the same list |
| SplitterLaws.ResplitJoined | internal/migrationplan/statements.go:11-119 | The statements of such a file joined that way and split again are the same list |
| SplitterLaws.ResplitJoinedIff | internal/migrationplan/statements.go:11-119 | For any file that splits, its statements joined by a semicolon on a line of its own split back into the same list under exactly that condition |
| SplitterLaws.SemicolonRoundTrip | internal/migrationplan/statements.go:11-119 | Joined by a bare semicolon they split back if and only if no statement but the last ends inside a line comment |
| SplitterLaws.VerticalTabCounterexample | internal/migrationplan/statements.go:76-107 | A vertical tab counts as a token and is then trimmed away: an empty statement is returned, which does not split |
| SplitterLaws.BareSemicolonCounterexample | internal/migrationplan/statements.go:11-119 | Two statements whose bare-semicolon join does not split back |
| SplitterGrammar.SplitsByMeaning | internal/migrationplan/statements.go:11-119 | Every file built from plain characters, quoted values (a quote doubled or, outside backticks, escaped), line comments and block comments splits into exactly its statements: the texts between its semicolons that show more than comments and blanks, trimmed; one that breaks off in a block comment or a quote is that error |
| SplitterGrammar.EveryText | internal/migrationplan/statements.go:11-119 | Every text is such a file |
| SplitterGrammar.GrammarDecides | internal/migrationplan/statements.go:11-119 | So the grammar decides what is returned for every input, without reference to the reader |
| SplitterGrammar.QuotedIsOneStatement | internal/migrationplan/statements.go:51-74 | Plain text and a quoted value with any inside, semicolons and comment openers too, are one statement |
| SplitterGrammar.EscapedValue | internal/migrationplan/statements.go:58-65 | For every value, in single or double quotes with its quotes and backslashes escaped by a backslash |
| SplitterGrammar.DoubledValue | internal/migrationplan/statements.go:51-74 | For every value, in any of the three quotes with its quotes doubled; between backticks a backslash is an ordinary character |
| SplitterGrammar.OpenValue | internal/migrationplan/statements.go:109-119 | A quote left open is an error whatever was quoted |
| SplitterGrammar.CommentIsPassedOver | internal/migrationplan/statements.go:39-97 | A comment of either kind, whatever it holds but its own end, neither ends the statement around it nor opens a quote |
| SplitterGrammar.OpenComment | internal/migrationplan/statements.go:109-119 | A block comment left open is an error whatever it holds |
| SplitterGrammar.TrimIs | internal/migrationplan/statements.go:20-31 | Trimming takes exactly the 25 Unicode white space characters from both ends and nothing else |
| MigrationRunner.Database.Apply | cmd/production-migrate/main.go:98-130 | One checkpointed statement, dying after any of its commands, issues exactly the commands of the protocol |
| MigrationRunner.Database.Prepare | cmd/production-migrate/main.go:69-91 | The checks before the first statement do the same, refusing an unmanaged schema with tables and any RUNNING checkpoint |
| MigrationRunner.Database.ApplyFile | cmd/production-migrate/main.go:92-131 | The statements of one file, in order, with 1-based positions |
| MigrationRunner.Database.Migrate | cmd/production-migrate/main.go:64-131 | The whole program under the lock, for every plan and every point of death, is the command protocol on the flattened plan; it refuses, and leaves as it is, exactly a schema that is unmanaged and holds tables |
| MigrationRunner.RefusedIff | cmd/production-migrate/main.go:70-80 | A run is refused if and only if the schema is unmanaged and holds tables, and then nothing is done to it |
| MigrationRunner.Database.FindRunning | cmd/production-migrate/main.go:166-175 | A RUNNING checkpoint is found if and only if there is one |
| MigrationRunner.FlattenPrefix | cmd/production-migrate/main.go:92-97 | A plan extended by later files extends the list of statements and nothing else |
| MigrationRunner.FlattenStep | cmd/production-migrate/main.go:92-97 | What one more file adds, and that a file that does not split ends the plan |
| MigrationSafety.SentAtMostOnce | cmd/production-migrate/main.go:64-131 | Over any deployments of any plans, lock waits and crashes after any command, no statement position is ever sent twice |
| MigrationSafety.AppliedInPlanOrder | cmd/production-migrate/main.go:64-131 | If plans grow only by appending, the sent statements are always a prefix of the plan, the checkpoint table is that prefix, and at most one checkpoint is open: the last sent or the next |
| MigrationSafety.ReleasesApplyInOrder | internal/migrationplan/plan.go:113-154 | The same for successive releases given as files |
| MigrationSafety.FlattenDistinct | internal/migrationplan/plan.go:113-154 | Distinct file names give distinct checkpoint keys |
| MigrationSafety.DoneMeansApplied | cmd/production-migrate/main.go:92-131 | A normal exit leaves every statement of the plan sent and every checkpoint APPLIED |
| MigrationSafety.AmbiguousFreezes | cmd/production-migrate/main.go:83-91 | Once a checkpoint is left RUNNING no later deployment of any plan sends a statement or touches a checkpoint |
| MigrationSafety.OneOpen | cmd/production-migrate/main.go:98-131 | Two checkpoints are never RUNNING at once |
| MigrationSafety.EditedPlanStops | cmd/production-migrate/main.go:177-194 | A plan whose file or statement text differs from a recorded one, or whose record is still RUNNING, neither sends that statement nor anything after it, and never ends normally |
| MigrationSafety.UndisturbedRunFinishes | cmd/production-migrate/main.go:92-131 | From any settled prefix, with every statement accepted, a run sends exactly the missing statements and ends normally |
| MigrationSafety.DriveIsWorldRun | cmd/production-migrate/main.go:64-131 | The program left alone is a run of the world of deployments, so all of the above is about it |
| MigrationOutcomes.RunStands | cmd/production-migrate/main.go:70-131 | Wherever a run that passed the checks is stopped: the statements before it are APPLIED under their own digests, at most the one it is at is RUNNING, and the server accepted all it was sent but the last of a failed run |
| MigrationOutcomes.EndIs | cmd/production-migrate/main.go:70-131 | Exactly how a finished run ends: refused or ambiguous by what it found, failed if and only if the last statement it sent was not accepted, changed if and only if the first record that is not APPLIED as planned has another digest, and otherwise with every statement of the plan APPLIED |
| MigrationOutcomes.UndisturbedMigrates | cmd/production-migrate/main.go:70-131 | From any schema that is managed or empty and holds a prefix of the plan, with every statement accepted, the whole program sends exactly the missing statements and ends normally |
| MigrationOutcomes.UnmanagedIsLeftAlone | cmd/production-migrate/main.go:74-80 | No deployments of any plans change an unmanaged schema that holds tables |
| MigrationOutcomes.CheckpointsAreManaged | cmd/production-migrate/main.go:80-82 | Once there is a checkpoint the schema is managed, so no later deployment is refused |
| MigrationOutcomes.AppliedWasAccepted | cmd/production-migrate/main.go:98-131 | Over any deployments and crashes a checkpoint is APPLIED only if the server accepted its statement |
| MigrationOutcomes.RejectedStaysRunning | cmd/production-migrate/main.go:98-131 | A statement that is not accepted stays RUNNING and no later deployment sends or records anything |
| MigrationOutcomes.PlanOrder | internal/migrationplan/plan.go:113-154 | Statement j of file e is at position j + 1 of its file, and the plan is the statements of its files in order |
| MigrationOutcomes.CompleteIff | internal/migrationplan/plan.go:113-154 | A plan is whole if and only if every file splits |
| ContractTransfer.TransferStore.ClaimOne | internal/contracttransferworker/worker.go:179-214 | An event is handed out if and only if it is PENDING or RETRY_WAIT and due, or PROCESSING with its lease run out; the claim writes its token, status and lease on that row and on nothing else |
| ContractTransfer.TransferStore.AuthoritativeCommand | internal/contracttransferworker/worker.go:249-283 | A command is ready if and only if the lease is held, the event is self-consistent, the read works and the opportunity is still signed at the event's version or later; it carries the opportunity's own values and the event's stable identity |
| ContractTransfer.TransferStore.Settle | internal/contracttransferworker/worker.go:289-331 | A settlement goes through if and only if its token holds the row within the lease and the attempt number is free; attempt row and status change then commit together, otherwise nothing changes |
| ContractTransfer.TransferStore.Finish | internal/contracttransferworker/worker.go:289-309 | SENT or DEAD_LETTER with its attempt row |
| ContractTransfer.TransferStore.Retry | internal/contracttransferworker/worker.go:311-331 | The retry table: six delays, then DEAD_LETTER |
| ContractTransfer.TransferStore.Process | internal/contracttransferworker/worker.go:216-247 | One claimed event from authority check to settlement |
| ContractTransfer.TransferStore.RunOnce | internal/contracttransferworker/worker.go:149-177 | A poll takes turns until nothing is handed out, a turn fails or the batch is full, and reports exactly the number of events it settled |
| ContractTransfer.TransferStore.RetryFailed | internal/modules/opportunity/repository.go:709-716 | The operator puts a DEAD_LETTER event back to PENDING with retry_count 0 and keeps its attempt rows; no other event can be put back |
| ContractLedger.PollIsWorldRun | internal/contracttransferworker/worker.go:149-177 | A poll with nobody else in between is a run of the world of all workers, so the ledger laws hold of it |
| ContractLedger.LedgerAlways | internal/contracttransferworker/worker.go:179-331 | In every interleaving of claims, expiries, crashes, settlements and operator's retries: the attempt rows of an event that no operator put back are numbered exactly 1 to retry_count, at most 7, all but the last RETRY_WAIT, the last terminal if and only if the event is; an event put back stays at 0 above the rows of its first life; every SENT event was sent by an authorised command |
| ContractLedger.KeyFiresIffRequeued | internal/contracttransferworker/worker.go:289-331 | For the claimant that holds the row the unique attempt key fires if and only if an operator has put the event back |
| ContractLedger.AcceptedIffNeverRequeued | internal/contracttransferworker/worker.go:289-331 | A settlement by the holder is accepted if and only if no operator ever put the event back; otherwise it is rolled back whatever the result was |
| ContractLedger.InvAlways | internal/contracttransferworker/worker.go:179-331 | The invariant of rows, attempts, claims and calls behind these laws holds after every run |
| ContractLedger.RequeuedShows | internal/modules/opportunity/repository.go:709-716 | An event was put back if and only if it has more attempt rows than its retry_count |
| ContractLedger.RequeuedNeverSettles | internal/modules/opportunity/repository.go:709-716 | An event put back is never settled again: over every run it stays PENDING or PROCESSING at 0 and its attempt rows never grow |
| ContractLedger.RequeuedIsDeliveredForever | internal/modules/opportunity/repository.go:709-716 | For every n there is a run in which such an event is delivered n more times, accepted every time |
| ContractLedger.RequeueRun | internal/modules/opportunity/repository.go:709-716 | Such a state is reached from any empty database for any signed opportunity: one refused delivery and one operator's retry |
| ContractLease.LeaseExcludes | internal/contracttransferworker/worker.go:179-187 | While a lease runs asking for the event changes nothing at all, for any token |
| ContractLease.ExpiredIsTaken | internal/contracttransferworker/worker.go:179-214 | Once it has run out the next one who asks holds the event, under its own token and lease |
| ContractLease.UntouchedUntilRecorded | internal/contracttransferworker/worker.go:179-331 | Over every run in which nobody looks for expired work after the end of the lease, the row and its attempts stay as they are until its holder records a result within the lease |
| ContractLease.ResultIs | internal/contracttransferworker/worker.go:216-331 | The holder of an event never put back records exactly what it was told: SENT with the intake number, DEAD_LETTER, or RETRY_WAIT after 60, 300, 900, 3600, 10800 and 21600 seconds and DEAD_LETTER at the seventh failure; with one attempt row that says the same |
| ContractLease.TooLate | internal/contracttransferworker/worker.go:289-331 | After the end of its lease a claimant records nothing, even if nobody has taken the row over |
| ContractLease.WaitsItsTurn | internal/contracttransferworker/worker.go:179-187 | A failed event is handed out again if and only if its wait is over |
| ContractLedger.TerminalForever | internal/contracttransferworker/worker.go:289-331 | Over every run a SENT event never changes, a DEAD_LETTER event stays as it is if and only if no operator puts it back, and the attempts of either never change |
| ContractLedger.StaleForever | internal/contracttransferworker/worker.go:188-214 | A claim that lost its row never gets it back |
| ContractLedger.LateResultRejected | internal/contracttransferworker/worker.go:289-331 | A result obtained under an older claim's token is never recorded, however late it comes |
| ContractLedger.OvertakenIsStale | internal/contracttransferworker/worker.go:188-214 | Taking an expired event over makes the earlier claim stale at once |
| ContractLedger.SettledIsStale | internal/contracttransferworker/worker.go:289-331 | One claim records at most one attempt |
| ContractLedger.ClearedFromAuthority | internal/contracttransferworker/worker.go:249-283 | Every command sent carries the values of an opportunity row in the accepted signed state and at least as new as the event |
| ContractLedger.UnsignedIsDeadLettered | internal/contracttransferworker/worker.go:216-283 | For an opportunity that left the signed state there is no remote call, and its event goes to DEAD_LETTER if and only if no operator had put it back |
| FilingSubmission.FilingStore.Activate | internal/portalfilingworker/worker.go:149-180 | Each activated submission is the latest of a waiting filing; filing and outbox change together |
| FilingSubmission.FilingStore.Claim | internal/portalfilingworker/worker.go:182-216 | A claim touches one claimable row of a SUBMITTING filing |
| FilingSubmission.FilingStore.Complete | internal/portalfilingworker/worker.go:303-352 | Receipt, outbox row and filing change together, or nothing does; a repeated completion reads back the stored receipt |
| FilingSubmission.FilingStore.Fail | internal/portalfilingworker/worker.go:369-393 | A failure releases the row, or ends row and filing together |
| FilingSubmission.FilingStore.FindReceipt | internal/portalfilingworker/worker.go:303-352 | Whether another submission already holds this receipt |
| FilingSubmission.FilingStore.Dispatch | internal/portalfilingworker/worker.go:218-250 | One claimed submission: the checks, the provider's answer, completion or failure |
| FilingSubmission.FilingStore.RunOnce | internal/portalfilingworker/worker.go:120-144 | A poll activates what waits, then claims and dispatches one row at a time, whatever became of the one before |
| FilingSafety.PollIsWorldRun | internal/portalfilingworker/worker.go:120-144 | A poll with nobody else in between is a run of the world |
| FilingSafety.InStepAlways | internal/portalfilingworker/worker.go:149-393 | In every interleaving of the worker's steps with the service's submit and unlock the filing, its outbox rows and receipts stay in step |
| FilingSafety.InStep | internal/portalfilingworker/worker.go:149-393 | Spelled out for a filing and its latest row: the row is SENT iff there is a receipt and fails at most 7 times; a DRAFT has nothing in flight; any other filing is WAITING, SUBMITTING, SUBMITTED or FAILED iff the row is WAITING_CONTRACT, PENDING or PROCESSING, SENT or DEAD_LETTER |
| FilingSafety.InFlightIsLatest | internal/portalfilingworker/worker.go:182-216 | A row that can be claimed or completed is its filing's latest submission |
| FilingSafety.UnlockKeeps | internal/modules/portal/filing/service.go:585-625 | Unlocking keeps the correspondence |
| FilingSafety.SubmitKeeps | internal/modules/portal/filing/service.go:475-520 | So does submitting a draft again |
| FilingSafety.CompleteIdempotent | internal/portalfilingworker/worker.go:303-352 | A second completion changes nothing and succeeds if and only if it brings the same receipt |
| FilingSafety.SubmittedOnlyByReceipt | internal/portalfilingworker/worker.go:303-352 | Only an accepted completion makes a filing SUBMITTED, and it leaves the receipt |
| FilingSafety.LateWorkerRejected | internal/portalfilingworker/worker.go:303-393 | A row taken over or settled rejects the late worker |
| FilingSafety.FailureSchedule | internal/portalfilingworker/worker.go:354-393 | Each failure counts once, waits 60 seconds times the square of the attempt, and the seventh is final |
| FilingEffects.TakenIff | internal/portalfilingworker/worker.go:182-216 | A row is handed out if and only if its filing is SUBMITTING and it is PENDING and due, or PROCESSING with its lease run out; the taker then holds it for its lease |
| FilingEffects.LeaseExcludes | internal/portalfilingworker/worker.go:182-216 | While a lease runs asking for the row changes nothing at all, for any worker |
| FilingEffects.UntouchedUntilSettled | internal/portalfilingworker/worker.go:182-393 | Over every run in which nobody looks for expired work after the end of the lease, the row stays as it is until its holder completes or fails it within the lease |
| FilingEffects.CompletedIff | internal/portalfilingworker/worker.go:303-352 | A completion goes through if and only if the worker holds the row within its lease, the filing is SUBMITTING and neither the submission nor the authority has the receipt; what it leaves is stated in full |
| FilingEffects.DispatchSendsIff | internal/portalfilingworker/worker.go:218-302 | A dispatch makes its row SENT if and only if more than a second of lease is left, the submission is the latest and loads, the receipt names its number and authority, was received within five minutes of the row and the clock, was encrypted and is nobody else's |
| FilingEffects.DispatchFails | internal/portalfilingworker/worker.go:218-250 | Any other dispatch in time counts one failure against the row |
| FilingEffects.ActivatedIff | internal/portalfilingworker/worker.go:149-180 | A submission is activated if and only if it waits and is the last of a waiting filing; it is due at once |
| FilingEffects.ReceiptsAreUnshared | internal/portalfilingworker/worker.go:303-352 | In every reachable state no two submissions have the same receipt of the same authority |
| FilingEffects.StepGrows | internal/portalfilingworker/worker.go:149-393 | A stored receipt stays, and a filing's version counts its changes of status one by one |
| AlertStore.Store.AcquireLease | internal/opportunityalertworker/worker.go:155-181 | The lease passes to a worker if and only if it is free, its own or expired, and then runs for its full duration; otherwise it stays as it is |
| AlertStore.Store.RenewLease | internal/opportunityalertworker/worker.go:183-205 | A renewal succeeds only for the owner before expiry and moves the expiry by at least a millisecond |
| AlertStore.Store.CreateAlert | internal/opportunityalertworker/worker.go:280-311 | An alert and its queued event appear together, once per identity |
| AlertStore.Store.CreateAlerts | internal/opportunityalertworker/worker.go:207-246 | The alerts the rules call for are created in rule order, stopping at the first error |
| AlertStore.Store.Lookup | internal/opportunityalertworker/worker.go:280-311 | Whether an alert of this identity exists, in any status |
| AlertStore.Store.CancelActiveByID | internal/opportunityalertworker/worker.go:355-364 | An active alert and its queued event are cancelled together |
| AlertStore.Store.CancelEach | internal/opportunityalertworker/worker.go:323-353 | The same for a set of alerts, in any order |
| AlertStore.Store.CancelOpportunityAlerts | internal/opportunityalertworker/worker.go:340-353 | All active alerts of an opportunity |
| AlertStore.Store.CancelObsolete | internal/opportunityalertworker/worker.go:323-338 | Exactly the active alerts that are no longer called for |
| AlertStore.Store.ScanOne | internal/opportunityalertworker/worker.go:207-246 | One opportunity re-read under its lock: cancel all, or create and cancel the difference; without a licence nothing |
| AlertStore.Store.PickQueued | internal/opportunityalertworker/worker.go:398-448 | A batch of queued events, without repetition, short only when fewer are left |
| AlertStore.Store.DeliverBatch | internal/opportunityalertworker/worker.go:398-448 | Every picked event is sent or dropped |
| AlertStore.Query | internal/opportunityalertworker/worker.go:366-396 | The keyset query returns the first rows after the cursor that it keeps |
| AlertLaws.PendingIffOneQueued | internal/opportunityalertworker/worker.go:280-311 | An alert is PENDING if and only if exactly one queued event is addressed to it |
| AlertLaws.ScanAligns | internal/opportunityalertworker/worker.go:207-338 | After a licensed scan of a candidate its active alerts are among the desired identities, each desired identity has exactly one alert over the whole history, other opportunities are untouched |
| AlertLaws.ScanOneAligns | internal/opportunityalertworker/worker.go:207-246 | The same whatever the row turned out to be under the lock: no active alert is left where it is no candidate |
| AlertLaws.DeliverySends | internal/opportunityalertworker/worker.go:398-448 | Delivery never meets an alert that is not PENDING: every queued event it takes is sent, and the branch that drops one is dead |
| AlertLaws.CoupledAlways | internal/opportunityalertworker/worker.go:207-448 | Through any interleaving of scans, owner changes, deliveries and reads alerts and events stay coupled, and a cancelled alert is never revived or announced again |
| AlertLaws.FinalFrom | internal/opportunityalertworker/worker.go:280-364 | Cancelled alerts and events that left the queue are final |
| AlertEffects.CandidateIff | internal/opportunityalertworker/worker.go:366-396 | A scan looks after exactly the opportunities that are followed, not deleted and in one of the five timed stages |
| AlertEffects.NewAlertsAreDue | internal/opportunityalertworker/worker.go:207-311 | An alert is only raised for such an opportunity and for an enabled rule of its tenant and stage whose hours have passed, to its owner, and is PENDING |
| AlertEffects.ScanMeans | internal/opportunityalertworker/worker.go:207-338 | After a scan every identity that such a rule calls for has its alert, and every alert still active is one that such a rule calls for |
| AlertEffects.DeliveredAs | internal/opportunityalertworker/worker.go:398-448 | Delivery of one queued event, wherever its alert stands: unread and sent, or dropped with nothing else changed |
| AlertScan.LeaseExcludes | internal/opportunityalertworker/worker.go:155-205 | While a scanner's lease has not run out no other worker acquires or renews, and each of its own renewals succeeds and moves the expiry strictly forward |
| AlertScan.RenewalChangesTheRow | internal/opportunityalertworker/worker.go:183-205 | A renewal changes the row if and only if the worker still owns an unexpired lease, so the affected-row count tells |
| AlertScan.RenewedIsHeld | internal/opportunityalertworker/worker.go:107-153 | The worker held an unexpired lease at each of the renewals a scan made |
| AlertScan.RestSorted | internal/opportunityalertworker/worker.go:366-396 | The kept rows come in strictly increasing id order, so each is visited once |
| AlertScan.PageStep | internal/opportunityalertworker/worker.go:450-456 | A page moves the cursor past exactly the rows it returned; a short page was the last |
| AlertScan.PageCovers | internal/opportunityalertworker/worker.go:450-456 | No row between two cursors is skipped |
| AlertScan.CancelInactive | internal/opportunityalertworker/worker.go:366-396 | The first loop leaves no active alert on any opportunity that is not a candidate |
| AlertScan.ScanCandidates | internal/opportunityalertworker/worker.go:107-153 | The second loop visits every candidate exactly once, in id order, and aligns it |
| AlertScan.DeliverSiteMessages | internal/opportunityalertworker/worker.go:398-448 | Delivery terminates and leaves no queued event |
| AlertScan.Scan | internal/opportunityalertworker/worker.go:107-153 | A completed licensed scan leaves every opportunity of the table as the rules call for and nothing queued; a busy one changes no alert; every later reading of the clock is a renewal, at least one for each candidate, and the scan is over at the first that fails |
| RateLimiter.Limiter.Handle | internal/portalbootstrap/rate_limit.go:64-95 | One request under the lock is one step of the sweeping limiter |
| RateLimiter.Limiter.constructor | internal/portalbootstrap/rate_limit.go:59-63 | A new limiter holds no bucket |
| RateLimiter.SweepingIsInvisible | internal/portalbootstrap/rate_limit.go:65-87 | On every request sequence in timestamp order the sweeping limiter decides exactly as one that never deletes a bucket |
| RateLimiter.OutOfOrderCounterexample | internal/portalbootstrap/rate_limit.go:65-72 | Timestamps are read before the lock: a sequence out of order on which sweeping does show |
| RateLimiterSweep.SweepingShows | internal/portalbootstrap/rate_limit.go:65-87 | In any order of timestamps: the limiter that sweeps decides as the one that does not, for every limit, if and only if no request finds the bucket it still belongs into swept; it already shows with limit 1 |
| RateLimiterSweep.SweepingShowsOnlyOvertaken | internal/portalbootstrap/rate_limit.go:65-87 | The same by timestamps alone: if and only if no request takes the lock behind one that was due to sweep, stamped at or after the end of the bucket's window, while this one is stamped within it |
| RateLimiterSweep.InOrderNobodyOvertaken | internal/portalbootstrap/rate_limit.go:65-87 | In timestamp order that never happens |
| RateLimiter.BucketsAreYoung | internal/portalbootstrap/rate_limit.go:65-87 | After each request every stored bucket started less than two windows ago |
| RateLimiter.SlidingBound | internal/portalbootstrap/rate_limit.go:67-87 | No half-open interval one window long, wherever it starts, admits more than twice the limit less one |
| RateLimiter.ChargedAlways | internal/portalbootstrap/rate_limit.go:67-87 | The stronger account the bound rests on: what the current bucket has spent covers what an open interval admitted |
| RateLimiter.QuotaHolds | internal/portalbootstrap/rate_limit.go:59-97 | The same bound of the limiter that sweeps |
| RateLimiter.SlidingBoundIsTight | internal/portalbootstrap/rate_limit.go:67-87 | For every limit of at least 1 and window of at least 2 some sequence in timestamp order meets the bound exactly |
| RateLimiter.BucketAdmitsTheLimit | internal/portalbootstrap/rate_limit.go:67-87 | One bucket admits at most the limit |
| RateLimiter.WaitingLeavesTheWindow | internal/portalbootstrap/rate_limit.go:87-92 | A denied client that waits as Retry-After says opens a fresh bucket and is let through |
| RateLimiter.WaitIsExact | internal/portalbootstrap/rate_limit.go:79-92 | Of a denied client's next request exactly one that comes after the time told is let through |
| Reconciliation.Reconciler.ListCandidates | internal/portalinvitecompensationworker/reconciliation_store.go:22-45 | The keyset query: the first links after the cursor, in id order |
| Reconciliation.Reconciler.PersistObservation | internal/portalinvitecompensationworker/reconciliation_store.go:47-77 | One observation resolves the link's other open findings and opens or counts its own |
| Reconciliation.Reconciler.BySubject | internal/portalinvitecompensationworker/reconciliation.go:128-134 | A duplicate snapshot is found if and only if there is one; otherwise every snapshot is found under its user |
| Reconciliation.Reconciler.Advance | internal/portalinvitecompensationworker/reconciliation.go:116-123 | The cursor moves through strictly increasing ids with a user, or the page is refused |
| Reconciliation.Reconciler.ObservePage | internal/portalinvitecompensationworker/reconciliation.go:135-163 | The observations of a page up to the first error, each judged by the portal's snapshot and, where that is clean, by the platform |
| Reconciliation.Reconciler.Pages | internal/portalinvitecompensationworker/reconciliation.go:107-167 | The page loop terminates; its observations are those of a prefix of the link table, each link once and in order, and all of it if and only if every page is without errors |
| Reconciliation.Reconciler.ReadPage | internal/portalinvitecompensationworker/reconciliation.go:116-163 | A page is observed whole if and only if every candidate names a user, the portal answers once per user and about everyone, the platform answers where it has to and every finding can be stored |
| Reconciliation.Reconciler.RunOnce | internal/portalinvitecompensationworker/reconciliation.go:85-168 | The run row ends SUCCEEDED or FAILED with the counts of what was observed; it succeeds if and only if every page of the link table is without errors; a duplicate run id changes nothing |
| Reconciliation.NextPage | internal/portalinvitecompensationworker/reconciliation_store.go:22-45 | After k links the keyset query returns the next ones, and none if and only if all have been seen |
| Reconciliation.SuccessfulRun | internal/portalinvitecompensationworker/reconciliation.go:107-207 | After a run without error every link has exactly the open findings of its verdict - one or none - whatever was open before |
| Reconciliation.OpenFindingsAreVerdicts | internal/portalinvitecompensationworker/reconciliation_store.go:47-77 | The same over any observations of distinct links |
| Reconciliation.OtherLinksUntouched | internal/portalinvitecompensationworker/reconciliation_store.go:47-77 | Observing other links leaves a link's findings alone |
| Reconciliation.OccurrencesCount | internal/portalinvitecompensationworker/reconciliation_store.go:64-77 | A finding's occurrence_count grows by exactly the number of observations that reported it |
| Reconciliation.MetricsBalance | internal/portalinvitecompensationworker/reconciliation.go:152-159 | Scanned is the number of observations, Consistent of the clean ones, AutoCompensation and NeedsReview of those with a finding of that mode; the three add up |
| Reconciliation.RunMarksChanges | internal/portalinvitecompensationworker/reconciliation_store.go:47-77 | Only rows that a run changed carry its mark; a finding that was not reported keeps its mode and count and is at most closed, one that was is open with the mode last reported |
| Reconciliation.CrmCodeMeans | internal/portalinvitecompensationworker/reconciliation.go:170-180 | The three CRM codes, each if and only if that is the first thing wrong |
| Reconciliation.MissingCodeMeans | internal/portalinvitecompensationworker/reconciliation.go:181-190 | The portal does not have the link and a task is live, or dead |
| Reconciliation.NobodyBringsIt | internal/portalinvitecompensationworker/reconciliation.go:181-190 | The portal does not have the link and there is no such task |
| Reconciliation.PortalCodeMeans | internal/portalinvitecompensationworker/reconciliation.go:191-207 | The portal has another link, another status, or one that nobody knows |
| Reconciliation.BindingMeans | internal/portalinvitecompensationworker/reconciliation.go:209-229 | The platform's binding is missing or in the wrong status, for links the CRM and the portal agree about |
| Reconciliation.NoFindingMeansAgreement | internal/portalinvitecompensationworker/reconciliation.go:170-229 | No finding if and only if the customer, the contact, the account number, the portal snapshot and the platform binding all agree |
| Reconciliation.AutoOnlyWithLiveTask | internal/portalinvitecompensationworker/reconciliation.go:170-207 | A finding is left to compensation if and only if the portal link is missing and a live task exists |
| Compensation.TaskStore.Claim | internal/portalinvitecompensationworker/store.go:50-84 | A batch is claimed row by row, each with its version raised |
| Compensation.TaskStore.CompleteRole | internal/portalinvitecompensationworker/store.go:86-106 | The child mapping task is found or created in the transaction that completes the role task, or neither happens |
| Compensation.TaskStore.CompleteMapping | internal/portalinvitecompensationworker/store.go:108-149 | The link is created or updated in the transaction that completes the mapping task, or neither happens; mismatched and DISABLED links refuse |
| Compensation.TaskStore.Complete | internal/portalinvitecompensationworker/store.go:176-196 | Completion under the version fence |
| Compensation.TaskStore.Failed | internal/portalinvitecompensationworker/store.go:198-216 | Failure under the version fence, with the retry table |
| Compensation.TaskStore.Dispatch | internal/portalinvitecompensationworker/worker.go:133-182 | Every branch of the dispatch: licence, malformed task, role, mapping, bindings with their fence, unknown type |
| Compensation.TaskStore.RunOnce | internal/portalinvitecompensationworker/worker.go:97-127 | A poll dispatches every claimed task, whatever happens to the others |
| CompensationLaws.PollIsWorldRun | internal/portalinvitecompensationworker/worker.go:97-108 | A poll with nobody else in between is a run of the world |
| CompensationLaws.ChainHolds | internal/portalinvitecompensationworker/store.go:86-216 | In every state reachable by workers, takeovers, crashes and the invite service's own writes of links, a finished role task has its mapping task with the same identity, a finished mapping task has its link with the same user and an account, and a task fails at most seven times |
| CompensationLaws.RunKeeps | internal/portalinvitecompensationworker/store.go:50-216 | Every such run keeps the invariant, and rows and links only move forward: identities never change, links never lose their account |
| CompensationLaws.UpsertForward | internal/modules/portalinvite/repository.go:89-112 | The invite service's own upsert of a link keeps it moving forward and touches no task |
| CompensationLaws.ChildIsOwn | internal/modules/portalinvite/service.go:715-724 | With the service's numbers - operation number and step suffix - a role task's child number belongs to its own operation |
| CompensationLaws.SameChild | internal/portalinvitecompensationworker/store.go:89-92 | Two numbers derive the same child if and only if they are equal or one is the other, not ending in R, plus R |
| CompensationLaws.SecondChildIsOwn | internal/portalinvitecompensationworker/store.go:86-106 | Without that discipline: of two role tasks of different people the second gets its own mapping task if and only if the numbers do not clash; otherwise it is SUCCEEDED with the first person's |
| CompensationLaws.SpentForever | internal/portalinvitecompensationworker/store.go:176-216 | Once a row has moved past a worker's copy nothing done with that copy has any effect, ever |
| CompensationLaws.AcceptedOnce | internal/portalinvitecompensationworker/store.go:176-216 | A result is accepted at most once per claim |
| CompensationLaws.TakenOverIsSpent | internal/portalinvitecompensationworker/store.go:50-84 | A takeover spends the earlier copy |
| CompensationLaws.LinkMoves | internal/portalinvitecompensationworker/store.go:108-149 | A worker's step changes a link if and only if it is an accepted mapping of it, not DISABLED, for the link's user and with its account or none stored; it is then PENDING with that account |
| CompensationLaws.ActiveReverts | internal/portalinvitecompensationworker/store.go:108-149 | An ACTIVE link leaves ACTIVE by a worker's step if and only if the step is an accepted mapping of that link for its user, with its account or with none stored |
| CompensationLaws.LinkAppears | internal/portalinvitecompensationworker/store.go:108-149 | A worker's step creates a link if and only if it is an accepted mapping of it and no other link holds the user |
| CompensationLaws.ActiveRevertsRun | internal/portalinvitecompensationworker/store.go:108-149 | From any empty database, for any identity, a run whose link is ACTIVE and goes back to PENDING by a mapping result that comes late |
| CompensationLaws.DisabledStays | internal/portalinvitecompensationworker/store.go:108-149 | An administrator's DISABLED survives every run of the workers |
| CompensationLaws.DisabledMappingWaits | internal/portalinvitecompensationworker/store.go:117-120 | A mapping task of a DISABLED link is neither completed nor failed, however often the portal answers |
| CompensationLaws.BindingRespectsDisabled | internal/portalinvitecompensationworker/store.go:151-166 | The platform is never asked to bind a user whose link is DISABLED |
| CompensationEffects.ClaimedIff | internal/portalinvitecompensationworker/store.go:50-84 | A task is handed out if and only if it is due or its lease has run out; the taker holds it at its next version for its lease |
| CompensationEffects.LeaseExcludes | internal/portalinvitecompensationworker/store.go:50-84 | While a lease runs asking for the task changes nothing at all, for any worker |
| CompensationEffects.NoIsAFailure | internal/portalinvitecompensationworker/worker.go:133-182 | Where the remote system was not asked or did not say yes nothing becomes SUCCEEDED, no task is created and no link changes; a licensed task that is still the worker's own counts one failure and waits 60, 300, 900, 3600, 10800 or 21600 seconds, or is dead at the seventh |
| CompensationEffects.YesSucceeds | internal/portalinvitecompensationworker/worker.go:133-182 | Where it said yes the task is SUCCEEDED if and only if it is still the worker's own and, for a mapping, the link could be written; a role task then has its child, fresh if there was none |
| CompensationEffects.SucceededWasGranted | internal/portalinvitecompensationworker/worker.go:133-182 | In every reachable state every SUCCEEDED task had the remote system's yes |
| OwnerNotification.NotificationStore.Claim | internal/ownerchangenotificationworker/worker.go:107-141 | A claim gives a due or expired event a finite lease |
| OwnerNotification.AuditOf | internal/ownerchangenotificationworker/worker.go:258-269 | The audit row found is the newest of its version: none after it matches |
| OwnerNotification.NotificationStore.FindAudit | internal/ownerchangenotificationworker/worker.go:258-269 | The query finds that row |
| OwnerNotification.NotificationStore.CountLater | internal/ownerchangenotificationworker/worker.go:274-279 | A later hand-over is counted if and only if there is one |
| OwnerNotification.NotificationStore.CancelObsoleteUnread | internal/ownerchangenotificationworker/worker.go:221-230 | Exactly the unread notifications of older versions are withdrawn |
| OwnerNotification.NotificationStore.FinishWithRetry | internal/ownerchangenotificationworker/worker.go:333-347 | The event is released in its final status |
| OwnerNotification.NotificationStore.Process | internal/ownerchangenotificationworker/worker.go:176-219 | The transaction: lease, payload, opportunity, audit evidence; dead letter, cancel, or project and send |
| OwnerNotification.NotificationStore.Retry | internal/ownerchangenotificationworker/worker.go:349-372 | The retry table under the lease |
| OwnerNotification.NotificationStore.ProcessBatch | internal/ownerchangenotificationworker/worker.go:80-105 | A batch in order, a failed event retried, the batch left at the first lost lease, and the number handled before it reported |
| OwnerNotificationLaws.UnreadIsOneHandOver | internal/ownerchangenotificationworker/worker.go:176-304 | In every reachable state two unread notifications of an opportunity are about the same hand-over, and are one if they address the same party, whatever order events were claimed, retried or replayed in |
| OwnerNotificationLaws.AlwaysOk | internal/ownerchangenotificationworker/worker.go:176-304 | The invariant behind it, with increasing audit versions and notifications that match their source event |
| OwnerNotificationLaws.HandOverKeeps | internal/modules/opportunity/team.go:98-133 | The opportunity service's hand-over keeps it |
| OwnerNotificationLaws.ProcessKeeps | internal/ownerchangenotificationworker/worker.go:176-219 | So does every processing transaction |
| OwnerNotificationLaws.BatchKeeps | internal/ownerchangenotificationworker/worker.go:80-105 | And every batch |
| OwnerNotificationLaws.ApprovedIsNewest | internal/ownerchangenotificationworker/worker.go:258-304 | An approved event carries the newest audited version of its opportunity |
| OwnerNotificationLaws.NeverRevived | internal/ownerchangenotificationworker/worker.go:221-235 | An event is projected at most once; a notification read or withdrawn never comes back |
| OwnerNotificationLaws.SentIsTrue | internal/ownerchangenotificationworker/worker.go:258-304 | A notification appears only under the event's lease and then states the newest hand-over of a live opportunity |
| OwnerNotificationLaws.LateWorkerRejected | internal/ownerchangenotificationworker/worker.go:181-185 | A worker without the lease changes nothing |
| OwnerNotificationLaws.RetriesBounded | internal/ownerchangenotificationworker/worker.go:349-372 | An event fails at most seven times, and the worker's copy of the count is the row's while it holds the row |
| OwnerNotificationLaws.HandOverStands | internal/modules/opportunity/team.go:98-133 | A hand-over between two named people, once its events are claimed, stands: audit, opportunity and events agree |
| OwnerNotificationLaws.BothPartiesAreTold | internal/ownerchangenotificationworker/worker.go:176-219 | Once both events of a standing hand-over are processed, exactly the two parties have an unread notification, whatever was unread before |
| OwnerNotificationEffects.ClaimedIff | internal/ownerchangenotificationworker/worker.go:107-141 | An event is handed out if and only if it is due or its lease has run out; the taker holds it for its lease |
| OwnerNotificationEffects.LeaseExcludes | internal/ownerchangenotificationworker/worker.go:107-141 | While a lease runs asking for the event changes nothing at all, for any worker |
| OwnerNotificationEffects.UntouchedUntilHandled | internal/ownerchangenotificationworker/worker.go:107-372 | Over every run in which nobody looks for expired work after the end of the lease, the event stays as it is until its holder handles it within the lease |
| OwnerNotificationEffects.TooLate | internal/ownerchangenotificationworker/worker.go:181-185 | After the end of its lease a worker changes nothing, even if nobody has taken the event over |
| OwnerNotificationEffects.JudgeIs | internal/ownerchangenotificationworker/worker.go:186-304 | An event is unfounded if and only if it is unsound, or its opportunity is there and the trail does not bear it out; it is approved if and only if it is sound, borne out and still true |
| OwnerNotificationEffects.ProcessedAs | internal/ownerchangenotificationworker/worker.go:176-304 | Approved, it is SENT, the party has its notification and exactly the older unread ones are withdrawn; overtaken, it is CANCELLED; unfounded, it is DEAD_LETTER with one more failure |
| OwnerNotificationEffects.FailureCounts | internal/ownerchangenotificationworker/worker.go:349-372 | A failed transaction counts once, and the event waits 60, 300, 900, 3600, 10800 or 21600 seconds or is dead at the seventh |
| OwnerNotificationEffects.BatchStopsAt | internal/ownerchangenotificationworker/worker.go:80-105 | A batch goes on exactly until the first event whose lease is lost: those before are handled in order, that one and those after are left alone |
| ProjectSync.SyncStore.SeedCustomers | internal/portalprojectworker/store.go:20-27 | Missing rows are added, existing cursors stay |
| ProjectSync.SyncStore.Claim | internal/portalprojectworker/store.go:30-55 | A due row gets an owner, a lease and the next version |
| ProjectSync.SyncStore.ApplyPage | internal/portalprojectworker/store.go:57-104 | Project rows, cursor and version change together under owner, version and lease, or nothing does; the result counts the rows that changed |
| ProjectSync.SyncStore.Failed | internal/portalprojectworker/store.go:106-118 | A failure releases the row and moves no cursor |
| ProjectSync.SyncStore.RunOnce | internal/portalprojectworker/worker.go:56-94 | One round is its script in the world of all workers, wherever the source stops answering, and reports exactly the rows that its pages changed |
| ProjectChain.GaplessAlways | internal/portalprojectworker/store.go:30-118 | In every reachable state the first page applied was fetched with the empty cursor, each later one with the cursor the page before it left, no two at one version; the stored cursor is where the last page left it, and the project table is exactly what these pages produce |
| ProjectChain.StepMoves | internal/portalprojectworker/store.go:57-118 | Every step leaves a row alone or moves it to the next version; only a settlement that holds the lease appends a page or moves the cursor |
| ProjectChain.LateHolderRejected | internal/portalprojectworker/store.go:57-118 | A worker whose row moved on never applies a page or reports a failure, however late |
| ProjectChain.StaleForever | internal/portalprojectworker/store.go:57-118 | A stale holder stays stale |
| ProjectChain.MovedOnIsStale | internal/portalprojectworker/store.go:30-118 | Every change of a row makes every earlier claim on it stale, so a page is applied at most once |
| ProjectChain.LeaseExcludes | internal/portalprojectworker/store.go:30-55 | While an up-to-date worker's lease has not run out no other worker's step changes the row |
| ProjectChain.TableIsNewest | internal/modules/portal/project/repository.go:152-218 | The project table holds the newest bundle of each project ever applied, the first of equally new ones |
| ProjectChain.OrderDoesNotMatter | internal/modules/portal/project/repository.go:152-218 | The same bundles in another order, other pages or repeated give the same table |
| ProjectChain.UndisturbedRound | internal/portalprojectworker/worker.go:69-94 | A round nobody disturbs applies every page the source offers and releases the row |
| ProjectEffects.TakenIff | internal/portalprojectworker/store.go:30-55 | A row is handed out if and only if its next run is due and its lease, if any, has run out; the taker holds it at its next version for its lease |
| ProjectEffects.FetchedIff | internal/portalprojectworker/http_source.go:54-120 | A worker takes exactly the pages that may follow its cursor: each project once, another page only behind a cursor that moves, never back to the beginning |
| ProjectEffects.AppliedMayFollow | internal/portalprojectworker/http_source.go:54-120 | In every reachable state every page ever applied was one of those |
| ProjectEffects.AppliedIff | internal/portalprojectworker/store.go:57-104 | A page is applied if and only if the worker holds the row at its version within the lease and the database takes it; the row is then released until its next run, or its lease renewed if there is more |
| ProjectEffects.FailedIff | internal/portalprojectworker/store.go:106-118 | A failure is recorded if and only if the worker still holds the row at its version, in or out of the lease, and puts off the next run alone |
| ProjectEffects.SeededAs | internal/portalprojectworker/store.go:20-27 | A customer seen for the first time has no cursor and is due at once; nobody else changes |
| ProjectEffects.ChangesAreNews | internal/modules/portal/project/repository.go:152-218 | The number reported for a page is the number of its bundles of unknown or older projects |
| AuditBuffer.Buffer.Write | internal/middleware/request_audit_buffer.go:124-152 | A write is held, spilled or refused, with the memory limit and the hard limit kept and the byte count returned |
| AuditBuffer.Buffer.WriteHeader | internal/middleware/request_audit_buffer.go:112-116 | A code is taken only before the first write |
| AuditBuffer.Buffer.WriteHeaderNow | internal/middleware/request_audit_buffer.go:118-122 | Marks the response as written |
| AuditBuffer.Buffer.SpillToDisk | internal/middleware/request_audit_buffer.go:91-108 | The held bytes move to the file or stay where they are |
| AuditBuffer.Buffer.FlushTo | internal/middleware/request_audit_buffer.go:52-77 | The connection gets the held status, headers and bytes |
| AuditBuffer.Buffer.constructor | internal/middleware/request_audit_buffer.go:45-50 | An empty buffer with status 200 |
| AuditBuffer.RequestAudit | internal/middleware/request_audit.go:39-154 | The middleware's decisions for every request, store outcome and limit |
| AuditBuffer.HoldIsWritten | internal/middleware/request_audit_buffer.go:124-152 | With a healthy file system the held bytes are what the handler wrote and the status what it set, unless it wrote more than the hard limit in all |
| AuditBuffer.MemoryLimitIsInvisible | internal/middleware/request_audit_buffer.go:135-141 | The memory limit changes nothing but where bytes are kept |
| AuditBuffer.StatusIsFrozen | internal/middleware/request_audit_buffer.go:112-122 | The status is the last code set before the first write or flush, or 200 |
| AuditBuffer.WholeIffAllTaken | internal/middleware/request_audit_buffer.go:124-152 | Whatever the file system does, everything the handler wrote is held if and only if it fits the hard limit, the file can be created where the memory limit is first exceeded and takes every write from there on whole |
| AuditBuffer.WholeResponseIff | internal/middleware/request_audit.go:112-152 | In mandatory mode the client gets everything the handler wrote if and only if start and completion are recorded, the size fits, the file system took it all and the file reads back that far |
| AuditBuffer.ReleasedOnlyIfRecorded | internal/middleware/request_audit.go:59-152 | In mandatory mode the client sees the handler's response if and only if start and completion were recorded and nothing overflowed; a record of success means it was sent; otherwise it gets a 503 |
| AuditBuffer.ReleasedIsWhole | internal/middleware/request_audit.go:127-152 | With a healthy file system the released response is whole, and it is withheld for its size exactly when it exceeds the hard limit |
| AuditBuffer.OtherwiseUntouched | internal/middleware/request_audit.go:43-77 | Probes and panics leave no record; outside mandatory mode nothing is held back |
| AuditBuffer.ShortWriteCounterexample | internal/middleware/request_audit_buffer.go:142-151 | A short write to the file is not counted as an overflow: the truncated response is released and recorded as a success |
| AuditLaws.ReleasedHeaders | internal/middleware/request_audit_buffer.go:52-61 | In a released response each key the handler set carries the values it set last and is absent where those are none, and every other key is the connection's |
| AuditLaws.GivenUpIff | internal/middleware/request_audit_buffer.go:124-152 | Where the file takes each write whole, a response is withheld if and only if it exceeds the hard limit or the file could not be created where it first outgrew memory |
| AuditLaws.WriteTells | internal/middleware/request_audit_buffer.go:124-152 | A write reports the bytes that are held now, and success if and only if they are all it was given and the response has not been given up |
| AuditLaws.RecordedAs | internal/middleware/request_audit.go:59-152 | What is recorded and what the client is told for every request without short writes: one record if and only if the store takes both, with the status, result, risk and reason its status and size call for; the 503 codes; released if and only if recorded and not withheld |
| AuditLaws.NotRecorded | internal/middleware/request_audit.go:39-77 | The same of probes and panics, which are never recorded |
| ClaimsCatalog.SortedUnique | internal/platformcatalog/catalog.go:322-338 | The loop with its set of seen values is the sorted list of distinct non-blank trimmed values |
| ClaimsCatalog.NormalizePermissions | internal/platformcatalog/catalog.go:203-228 | The permission loop reports the first error in list order, or the cleaned list |
| ClaimsCatalog.NormalizeRoles | internal/platformcatalog/catalog.go:231-247 | So does the role loop |
| ClaimsCatalog.NormalizeManifest | internal/platformcatalog/catalog.go:192-280 | The whole normalisation |
| ClaimsCatalogLaws.PublishedIffOk | internal/platformcatalog/catalog.go:192-248 | A manifest is accepted if and only if it is complete, within the limits, with well formed permissions distinct by code and by resource and action, and complete roles distinct by code that grant only known permissions |
| ClaimsCatalogLaws.ScanPermissionsIs | internal/platformcatalog/catalog.go:203-228 | The part about permissions |
| ClaimsCatalogLaws.ScanRolesIs | internal/platformcatalog/catalog.go:231-247 | The part about roles |
| ClaimsCatalogLaws.SortBySorts | internal/platformcatalog/catalog.go:229-248 | Sorting items with distinct keys gives the same items in strictly ascending order |
| ClaimsCatalogLaws.SortedUniqueIs | internal/platformcatalog/catalog.go:322-338 | A permission list's canonical form is its set of permissions in ascending order |
| ClaimsCatalogLaws.SameListIffSameGrants | internal/platformcatalog/catalog.go:322-338 | Two lists have the same form if and only if they grant the same |
| ClaimsCatalogLaws.ClaimIs | internal/platformcatalog/catalog.go:263-272 | The claims are exactly one entry for each role code, with exactly that role's permissions in ascending order |
| ClaimsCatalogLaws.SameClaimsIffSameMapping | internal/platformcatalog/catalog.go:261-278 | Two accepted manifests have the same claims configuration if and only if they map the same role codes to the same permission sets, whatever the order, repetition, padding or wording |
| ClaimsCatalogLaws.PayloadIgnoresOrder | internal/platformcatalog/catalog.go:229-260 | The whole payload, and so its checksum, ignores the order of permissions and roles |
| ClaimsCatalogMeaning.PublishedIff | internal/platformcatalog/catalog.go:192-248 | Exactly which manifests are published, by the texts they are written with: trimmed, the words for risk and grant in any case, codes and actions distinct, roles granting only codes that are there |
| ClaimsCatalogMeaning.CleanedIs | internal/platformcatalog/catalog.go:203-213 | What becomes of each text of a permission |
| ClaimsCatalogMeaning.SameKeyIs | internal/platformcatalog/catalog.go:219-226 | Two permissions share their key if and only if they share the resource and, in any case, the action, where no resource holds a NUL |
| ClaimsCatalogMeaning.PublishedPermissions | internal/platformcatalog/catalog.go:203-230 | One permission is published for each item, in ascending order of codes |
| ClaimsCatalogMeaning.PublishedRoles | internal/platformcatalog/catalog.go:231-248 | One role is published for each item, with its trimmed texts and its permissions in ascending order |
| ClaimsCatalogMeaning.FirstMistake | internal/platformcatalog/catalog.go:203-228 | A permission list is refused for its first wrong item and the first thing wrong with it |
| ClaimsCatalogMeaning.FirstRoleMistake | internal/platformcatalog/catalog.go:231-247 | So is a role list; of several unknown permissions the first in order is named |
| ClaimsCatalogMeaning.ReportedAs | internal/platformcatalog/catalog.go:192-248 | The manifest as a whole is looked at first, then its permissions, then its roles |
| ClaimsCatalogMeaning.LessIs | internal/platformcatalog/catalog.go:229-248 | The order of the lists: a proper beginning first, or the smaller character where two texts first differ |
| Wrappers.DecimalReads | internal/contracttransferworker/worker.go:257 | The decimal form of a key is digits without leading zeros and stands for that number |

## Left out

- Splitter.SplitStatements: bytes that are not valid UTF-8.
- MigrationRunner.Database.Migrate: the metadata bootstrap SQL, the version table and the connection handling around the lock; the plan's own file checks beyond distinct names; a file edited between building the plan, which takes its checksum, and applying it; an operator who settles a RUNNING checkpoint by hand.
- ContractTransfer.TransferStore.Process: normalisation of the amount, error summaries and the HTTP delivery; a bound on the number of remote calls, which a crash-looping claim does not have.
- ContractTransfer.TransferStore.RetryFailed: the tenant and permission checks and the audit record of the operator's endpoint.
- FilingSubmission.FilingStore.Activate: the material and payload digests, field encryption and the loading of the bundle, which appear as answers of the outside world.
- Compensation.TaskStore.Dispatch: error summaries and logging; whether a mapping task of a DISABLED link is ever settled, since its lease merely runs out and no attempt is counted.
- AlertScan.Scan: the texts of the notifications; opportunities and rules stay fixed during one call of the method, while the laws about single transactions hold under any change between them.
- Compensation.TaskStore.RunOnce: the reconciliation schedule between polls, logging and queue statistics; the order of created_at in which claimed rows are handed out.
- ProjectSync.SyncStore.RunOnce: takes the answers of the source as given, so it does not say whether paging ever ends; the source only refuses a repeated neighbouring cursor.
- Reconciliation.Reconciler.Pages: columns of a finding that repeat the candidate and the snapshot; the link table, the portal's and the platform's answers are fixed for each link of a run.
- Compensation.TaskStore.Claim: soft-deleted rows, here and in the other modules; no query of the model returns one.
- OwnerNotification.NotificationStore.Process: unreadable audit snapshots, which the opportunity service never writes.
- ProjectSync.SyncStore.ApplyPage: the length limits of a page and the children of a project bundle, which travel with the bundle.
- AuditBuffer.RequestAudit: the addresses, actor fields and route of the record; how the environment decides on mandatory mode; probe paths; headers set after the first write outside mandatory mode.
- ClaimsCatalog.NormalizeManifest: folds the case of risk levels, grant policies and actions for ASCII letters only.
- HTTP clients, OAuth and TLS, routing, configuration, encryption and the presale, feedback and report workers, which repeat patterns modelled here with weaker fences.
- The file gateway, where file-system semantics dominate, and table lookups such as the permission manifests.
