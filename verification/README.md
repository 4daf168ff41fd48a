# Asterun: verified models of its ledgers and protocols

Asterun keeps durable ledgers in one SQLite file and runs a crash-tolerant dispatch protocol on top of
them. This project models its hard core in Dafny and proves what it is for.

* **Control store** (`ControlLedger`, `EventLog`, `Fencing`, `Outbox`, `ControlStore`): reservations
  against hard budgets, gapless event streams with retention, fenced leases, an outbox, the command index
  and content-addressed blobs. `ControlSnapshot` is the backup validator and `ControlReachable` proves
  which stores it accepts; `ControlDumps` writes the dumps; `LedgerOutcomes` says exactly which reservations
  and settlements are accepted and what they store.
* **Control runtime** (`ControlEntities`, `ControlSpec`, `ControlRuns`, `ControlTurns`, `ControlRuntime`): one prompt per
  Action from admission through the outbox, delivery, submission, observation and settlement, under every
  interleaving of commands, polls, executor events and crashes. `ControlOutcomes` says when a Task succeeds,
  fails or is cancelled, `ControlPermits` what must hold when anything leaves for the executor,
  `ControlCommands` what each command does, `TurnOutcomes` what one poll does.
* **Shared-pool ledger** (`UsageLedger`, `PoolLedger`, `PoolRuns`, `PluginStore`) with its own validator
  (`PoolSnapshot`, `PoolValidator`); `PoolOutcomes` says what a settlement books and when a plan is admitted.
* **Application** (`RunRecords`, `Application`, `Dispatch`): dispatch, result recording, slots, retries,
  approval forwarding and restart; `RunOutcomes` says what a run shows after a report.
* **Executor and local checks** (`ExecutorProtocol`, `Executor`, `CheckJobs`, `CheckCalls`,
  `CheckRuntime`); `CheckOutcomes` says which verdict a check is shown with.
* **Fixed-scope reader** (`AsciiJson`, `ReadScope`, `ReadPaging`, `ReadSearch`): pages under a byte budget
  measured on escaped JSON (section 7 of RFC 8259).
* **Quality workflow** (`QualityFlow`, `QualityRuns`, `QualityRuntime`); `QualityOutcomes` says when a flow
  begins a run, and when it may not.

A table is a map or a sequence of rows, and a transaction is one method or one specification function that
either gives the new tables or changes nothing. What the source changes step by step is a class or a loop,
proved equal to a specification function; the theorems are about those functions over whole runs. The modules
called `…Outcomes`, `ControlPermits` and `ControlCommands` state what each answer means in terms of their own,
without the specification functions, so that a step with two answers exchanged contradicts them. A crash
is a step that drops what only the process remembered. Calls into backends, adapters, the file system and
the clock are arguments that may hold any value.

`dafny verify dfyconfig.toml` checks everything.

## What the proofs found

* A task's prompts never exceed its turn limit (`ControlRuns.SubmissionsWithinBudget`), but the store by
  itself does not enforce it: `settle` accepts more than was reserved. `ControlLedger.SettleWithinExactly`
  gives the exact condition and `ControlLedger.SettlementCanOverrun` an example.
* A proven cancellation settles if and only if the run is still CANCELING
  (`ControlSpec.ConfirmedCancelSettles`). Losing the executor's record while a cancellation is under way
  moves the run to RECONCILING, and the transition table has no edge from there to CANCELED, so the proof is
  refused every time until another cancel command (`ControlSpec.CancellationCanStick`;
  `ControlSpec.RefusedExactly` says exactly which conclusions are refused). The error leaves the poll's loop,
  so the Actions behind a stuck one are not looked at in that poll (`ControlTurns.StuckEndsPoll`,
  `ControlTurns.ErrorEndsPoll`).
* The backup validator rejects some stores the store's own operations build. `ControlReachable.GuardExact`
  gives, for each operation, the exact guard under which an acceptable store stays acceptable;
  `ControlReachable.UnguardedEnqueueRejected` is an example.
* A finished run can be reopened in one way only: a synchronous backend call that raises saves the run it
  had loaded, after the final report was recorded through that same call (`RunRecords.ReopenedExactly`,
  `RunRecords.FinishedRunCanReopen`).
* After a crash between the two writes that precede a dispatch, the stored mark says that the run holds a
  slot while the restarted scheduler has it queued without one (`RunRecords.RestoreRebuildsSlot` says
  exactly when, `RunRecords.MarkedIntentLosesSlot` how).
* A page row can be flagged truncated although it carries its whole line: exactly when the line misses the
  budget by the one byte that writing `true` for `false` saves (`ReadPaging.FlaggedWhole`).
* A clean review of an implementation that is not a repair empties the list of open findings without
  closing any of them (`QualityRuns.ClosedExactly`).
* A publish may raise although its update was applied (`ExecutorProtocol.RaisedMayBeApplied`): exactly when
  its update had been put into the queue before its thread gave up (`ExecutorProtocol.RaisedExactly`). The
  converse, a publish that returned without its update having been applied, never happens.
* A retained report is retried within eight polls unless a crash or another failed recording of the same run
  comes between; failed recordings alone can put it off for any number of polls (`RunRecords.FailuresPutOff`).
* A run and its stored operation agree on how it ended over every execution in which no report ends the run
  between the two writes that precede its call (`RunOutcomes.OperationsAgree`); such a report parts them
  (`RunOutcomes.OperationsCanPart`).
* A completed flow's acceptance that was taken back comes back when its stages pass again, but not while the
  task is paused (`QualityRuns.PassedWhenLookedAt`).

## Model

| member | source | states |
|---|---|---|
| `ControlLedger.ParseExact` | src/asterun/control_store.py:90-99 | an amount list is accepted iff its meters are known, its keys distinct and its amounts safe integers, and it then reads as exactly the listed amounts |
| `ControlLedger.ReserveKeeps` | src/asterun/control_store.py:384-411 | an accepted reservation keeps the index and every limit of every budget |
| `ControlLedger.ReserveReplay` | src/asterun/control_store.py:384-411 | a repeated reservation is answered from the record and changes nothing |
| `ControlLedger.SettleTotals` | src/asterun/control_store.py:413-427 | a first settlement moves each total of its budget by actual minus reserved, and no other |
| `ControlLedger.SettleReplay` | src/asterun/control_store.py:413-427 | settling again with equal amounts changes nothing, with other amounts it is a conflict |
| `ControlLedger.SettleKeeps` | src/asterun/control_store.py:413-427 | a settlement of at most the reserved amounts keeps every limit |
| `ControlLedger.SettleWithinExactly` | src/asterun/control_store.py:413-427 | a settlement keeps every limit iff each actual amount fits what the limit leaves without the reservation's own claim |
| `ControlLedger.SettlementCanOverrun` | src/asterun/control_store.py:413-427 | a budget of one turn can settle two |
| `ControlLedger.MarkTotals` | src/asterun/control_store.py:429-438 | marking a reservation uncertain changes no total |
| `ControlLedger.RunStaysWithin` | src/asterun/control_store.py:370-438 | over every run whose settlements are at most reserved, settled plus held stays within every limit of every budget and key |
| `LedgerOutcomes.ReservedExactly` | src/asterun/control_store.py:384-411 | a new reservation is accepted iff it is well formed, open, for the budget's own Task, and every amount fits what the budget has left; it is stored as requested |
| `LedgerOutcomes.RepeatedExactly` | src/asterun/control_store.py:384-411 | a known reservation is answered, unchanged, iff Task, budget, Action and every amount are the same |
| `LedgerOutcomes.CountsExactly` | src/asterun/control_store.py:370-382 | a reservation counts its actual amounts once settled, its reserved ones while held or uncertain, and nothing once released |
| `LedgerOutcomes.SettledExactly` | src/asterun/control_store.py:413-427 | a settlement is accepted iff the reservation is open and its keys were reserved, or it repeats the same amounts; it stores exactly the reported amounts and receipts |
| `LedgerOutcomes.MarkedExactly` | src/asterun/control_store.py:429-438 | only an open reservation is marked, and only its status and revision change |
| `EventLog.EventsExact` | src/asterun/control_store.py:248-266 | a read returns exactly the next stretch of everything ever appended; it expires iff the cursor is below the floor |
| `EventLog.AppendKeeps` | src/asterun/control_store.py:217-246 | an append extends the full log by one event and keeps the refinement |
| `EventLog.AppendRefusedExactly` | src/asterun/control_store.py:217-246 | an append is refused iff the stream is at the integer ceiling or the event id was ever used, pruned ones included |
| `EventLog.PruneKeeps` | src/asterun/control_store.py:268-281 | pruning keeps the full log and raises the floor to exactly the requested point |
| `EventLog.ReaderNeverSkips` | src/asterun/control_store.py:217-281 | however appends, prunes and reads interleave, a chaining reader holds one unbroken section of the full log and no event id is reused |
| `EventLog.ReadOutcome` | src/asterun/control_store.py:248-266 | a reader is told of expiry iff a prune passed its cursor, otherwise it advances as far as the page allows |
| `EventLog.ReaderHoldsPrefix` | src/asterun/control_store.py:217-281 | a reader that starts with the task holds exactly what was ever appended up to its cursor |
| `Fencing.TokensOnlyMoveForward` | src/asterun/control_store.py:336-364 | over every run issued tokens strictly increase and guarded writes carry non-decreasing tokens |
| `Fencing.SupersededNeverPasses` | src/asterun/control_store.py:352-364 | a superseded token passes no check and no release in any continuation |
| `Fencing.ClaimCutsOff` | src/asterun/control_store.py:336-356 | after a successful claim every earlier token is refused for good |
| `Fencing.LiveLeaseIsExclusive` | src/asterun/control_store.py:336-364 | until it expires a lease is changed only by its own holder |
| `Fencing.ClaimedExactly` | src/asterun/control_store.py:336-364 | when a claim, a check and a release succeed, to the boundary second, and the lease they give |
| `Outbox.HandedAtMostOnce` | src/asterun/control_store.py:283-334 | an Action is handed to a deliverer at most once, with the payload first enqueued |
| `Outbox.DeliveredExactly` | src/asterun/control_store.py:283-334 | only a pending row is handed over, a payload never changes, and any known row can be called done |
| `Outbox.SaveKeeps` | src/asterun/control_store.py:195-215 | the command index stays one to one with the operation entities |
| `Outbox.SaveOnce` | src/asterun/control_store.py:187-215 | under one key the first operation is returned for the same digest and any other digest is a conflict |
| `ControlStore.ParseAmounts` | src/asterun/control_store.py:90-99 | the parsing loop equals the specification |
| `ControlStore.ControlStore.BudgetTotals` | src/asterun/control_store.py:370-382 | the accumulating loop computes, for every key, the settled and held sums over the budget's rows |
| `ControlStore.ControlStore.FindRefusal` | src/asterun/control_store.py:396-405 | the loop over meters finds the first entry that does not fit |
| `ControlStore.ControlStore.DoReserve` | src/asterun/control_store.py:384-411 | the transaction is the specified one, all keys or none |
| `ControlStore.ControlStore.DoSettle` | src/asterun/control_store.py:413-427 | the transaction is the specified one, errors change nothing |
| `ControlStore.ControlStore.DoMarkUncertain` | src/asterun/control_store.py:429-438 | the transaction is the specified one |
| `ControlStore.ControlStore.AppendEvent` | src/asterun/control_store.py:217-246 | the transaction is the specified one |
| `ControlStore.ControlStore.ReadEvents` | src/asterun/control_store.py:248-266 | the reading loop equals the specification |
| `ControlStore.ControlStore.PruneEvents` | src/asterun/control_store.py:268-281 | the transaction is the specified one |
| `ControlStore.ControlStore.EnqueueAction` | src/asterun/control_store.py:283-292 | enqueueing keeps one row and one payload per Action |
| `ControlStore.ControlStore.MarkDelivery` | src/asterun/control_store.py:319-327 | only a pending row becomes delivering |
| `ControlStore.ControlStore.FinishDelivery` | src/asterun/control_store.py:329-334 | a known row becomes done |
| `ControlStore.ControlStore.ClaimLease` | src/asterun/control_store.py:336-350 | only the claimed resource's row changes, to the next token |
| `ControlStore.ControlStore.ReleaseLease` | src/asterun/control_store.py:358-364 | only the live token's holder clears the row |
| `ControlStore.ControlStore.SaveOperation` | src/asterun/control_store.py:195-215 | entity and index are written together or not at all |
| `ControlStore.ControlStore.PutBlob` | src/asterun/control_store.py:168-176 | new content is kept under its digest; a blob that does not read back as put changes nothing |
| `ControlSnapshot.Validate` | src/asterun/backup.py:117-224 | the validator's loops accept a dump iff every section is sound: entities and blobs, operation and reservation indexes, contiguous streams with tombstones, outbox and leases |
| `ControlReachable.DumpAccepted` | src/asterun/backup.py:117-224 | the validator accepts a dump of a store iff its tables are acceptable |
| `ControlReachable.GuardExact` | src/asterun/control_store.py:144-438 | each store operation keeps an acceptable store acceptable iff its guard holds |
| `ControlReachable.BlobRoundTrip` | src/asterun/control_store.py:168-185 | after any further run of the store a blob's content is served under its digest iff putting it was not refused, and it is refused iff other content sits there |
| `ControlReachable.RunAcceptable` | src/asterun/control_store.py:144-438 | guarded runs keep a store acceptable |
| `ControlReachable.ReachableSnapshotsAccepted` | src/asterun/backup.py:117-224 | every store reached from an empty one by guarded operations passes the backup validator |
| `ControlReachable.UnguardedEnqueueRejected` | src/asterun/backup.py:211-217 | an Action enqueued without its entity makes the store's backup invalid |
| `ControlDumps.EveryStoreHasADump` | src/asterun/backup.py:117-224 | every state of the tables has a dump that lists exactly them |
| `ControlDumps.ReachableStoreBacksUp` | src/asterun/backup.py:117-224 | so every store reached by guarded operations has a dump the validator accepts |
| `ControlDumps.LockedOutStore` | src/asterun/backup.py:211-217 | and the store with the unguarded Action has a dump, which is rejected |
| `ControlSpec.OwnExact` | src/asterun/control.py:629-649 | ownership is refused only for want of the instance lock or of tokens; else the lease is kept or all three tokens move to the next one |
| `ControlSpec.OwnAgrees` | src/asterun/control.py:629-649 | after taking ownership run lease, stored lease and Action token agree and are live |
| `ControlSpec.OwnTwice` | src/asterun/control.py:629-649 | owning again at once changes nothing |
| `ControlSpec.ChargeCovers` | src/asterun/control.py:1053-1077 | the reservation always covers the prompts really submitted |
| `ControlSpec.OverEverywhere` | src/asterun/control.py:798-819 | Action over iff Reservation settled iff outbox done iff Run over; otherwise the Reservation is held or uncertain |
| `ControlSpec.DispatchKeeps` | src/asterun/control.py:759-796 | a guarded dispatch keeps the attempt's ledgers consistent and leaves it sent |
| `ControlSpec.NotAppliedKeeps` | src/asterun/control.py:798-819 | a refund of zero turns happens only for what was proven not sent |
| `ControlSpec.ConcludeKeeps` | src/asterun/control.py:923-1001 | an observation keeps the ledgers consistent and ends the Task's attempt iff the attempt is over |
| `ControlSpec.ConfirmedCancelSettles` | src/asterun/control.py:1003-1015 | a proven cancellation settles iff the run is still CANCELING |
| `ControlSpec.RefusedExactly` | src/asterun/control.py:798-888 | a conclusion is refused iff the record proves that nothing was sent and the run's status has no edge to the end it calls for; no used turn is ever refused, and a cancel command always unblocks it |
| `ControlSpec.CancellationCanStick` | src/asterun/control.py:880-888 | after a lost record the same proof is refused until another cancel command |
| `ControlSpec.StickyAttemptExists` | src/asterun/control.py:1003-1015 | an attempt that can get stuck so exists |
| `ControlRuns.NextKeeps` | src/asterun/control.py:721-1077 | every command, control transaction, executor event and crash keeps the invariant over all tables |
| `ControlRuns.LedgersAgree` | src/asterun/control.py:798-819 | in every reachable state the four records agree on whether an attempt is over, repeated EXECUTING and UNKNOWN_REMOTE round trips included |
| `ControlRuns.SubmissionsWithinBudget` | src/asterun/control.py:410-484 | over every interleaving the prompts submitted for a Task never exceed its hard turn limit |
| `ControlRuns.LimitsNeverRewritten` | src/asterun/control.py:311-333 | the limit a Task ends with is the one it was created with |
| `ControlRuns.SubmittedAtMostOnce` | src/asterun/control.py:759-796 | no attempt is submitted twice, and one settled at zero was never submitted |
| `ControlOutcomes.VerdictExact` | src/asterun/control.py:923-1119 | a conclusion gives the Task its verdict: cancelled if cancellation was wanted, else succeeded iff the finished record meets every required criterion under unchanged configuration and contract, else failed; run and Task end alike |
| `ControlOutcomes.ConclusionExact` | src/asterun/control.py:923-1119 | the same of a step over all tables: that Task alone takes that verdict, and without one none changes |
| `ControlOutcomes.SucceedsExactly` | src/asterun/control.py:1060-1119 | a step gives a Task success iff it concludes one of its attempts that earned it, and no step takes it away |
| `ControlOutcomes.SuccessIsEarned` | src/asterun/control.py:1060-1119 | over every run from an empty store a Task has succeeded iff one of its attempts was concluded as its criteria demand |
| `ControlOutcomes.EarnedByRecord` | src/asterun/control.py:302-309 | in every reachable state success takes a terminated, succeeded record of a wanted run under its first configuration and contract, with output if that is required |
| `ControlOutcomes.ChargedExactly` | src/asterun/control.py:1053-1077 | an attempt that ends settles one turn, unless the record proves that nothing was submitted, and then none |
| `ControlOutcomes.UnfinishedExactly` | src/asterun/control.py:975-1001 | what an observation does that ends nothing: a pause is confirmed, a lost record becomes uncertain, a live one executes, waiting iff the record waits |
| `ControlPermits.PermittedExactly` | src/asterun/control.py:674-707 | the guard passes iff the run is wanted running by the runner, configuration and contract are unchanged, lease and grant are live, and the grant is unused unless already admitted |
| `ControlPermits.DispatchedExactly` | src/asterun/control.py:759-796 | over all steps an Action leaves the outbox iff its own dispatch finds it permitted, no other call under way and its grant never used |
| `ControlPermits.StartedExactly` | src/asterun/control.py:651-707 | a prompt reaches an adapter iff a stored, queued record starts while its run is permitted |
| `ControlPermits.RevokedNeverSends` | src/asterun/control.py:569-575 | once its grant is revoked an attempt that has not started never submits a prompt, whatever follows |
| `ControlPermits.CancelIsFinal` | src/asterun/control.py:503-508 | a cancelled run is never wanted again and, if it ends, ends cancelled, whatever follows |
| `ControlCommands.CommandExactly` | src/asterun/control.py:486-575 | each command is accepted iff its condition holds, asks for exactly its change and leaves the rest of the attempt alone |
| `ControlCommands.PauseHandsOver` | src/asterun/control.py:917-921 | a confirmed pause hands the run to the human iff a takeover was asked for |
| `ControlCommands.DispatchUses` | src/asterun/control.py:759-796 | a dispatch uses its grant once, marks Action and outbox row, and charges nothing |
| `ControlCommands.UnsentExactly` | src/asterun/control.py:798-921 | what was never sent ends denied, failed or cancelled by what was wanted, and costs no turn |
| `ControlCommands.DeniedExactly` | src/asterun/control.py:759-796 | a dispatch that is not permitted is denied: the attempt and its Task fail at no cost |
| `ControlCommands.AbsentExactly` | src/asterun/control.py:798-819 | a dispatched intent proven absent fails, or is cancelled if that was wanted, at no cost |
| `ControlCommands.UndeliveredExactly` | src/asterun/control.py:902-921 | an unwanted run whose Action is still in the outbox is cancelled at no cost, or paused |
| `ControlCommands.FlaggedExactly` | src/asterun/control.py:923-974 | a stored, unstarted intent is flagged as not delivered iff cancellation is wanted, and nothing else changes |
| `ControlCommands.StartedExactly` | src/asterun/control.py:354-484 | a run starts iff its Task is ready, or failed with this very attempt as its last, nothing moved, and the budget carries a turn; what is minted, field by field, and nothing else changes |
| `ControlCommands.TasksExactly` | src/asterun/control.py:302-346 | a Task is created or amended iff it demands something (and, to amend, is still ready), with its budget and contract |
| `ControlCommands.EnvelopeExactly` | src/asterun/control.py:249-290 | a known key is answered from its record, a new command runs once if unexpired and its key is kept |
| `ControlCommands.KeyStaysBound` | src/asterun/control.py:249-290 | over every run a key stays bound to the command it first named |
| `ControlRuntime.OwnAttempt` | src/asterun/control.py:629-649 | the lease transaction equals the specification |
| `ControlRuntime.DispatchGuard` | src/asterun/control.py:674-707 | the guard's checks in their order equal the specification, which passes exactly what `PermittedExactly` says |
| `ControlRuntime.NotAppliedTx` | src/asterun/control.py:798-819 | on an open attempt every transition it takes is legal and the result is the specified one |
| `ControlRuntime.DenyTx` | src/asterun/control.py:890-900 | the denial is the specified one |
| `ControlRuntime.UndeliveredTx` | src/asterun/control.py:902-921 | answering a command on an undelivered intent is the specified step |
| `ControlRuntime.UnknownTx` | src/asterun/control.py:880-888 | a lost record makes the reservation uncertain and the run RECONCILING, once or repeatedly |
| `ControlRuntime.ObservedTx` | src/asterun/control.py:975-1001 | a live record takes the attempt back to executing |
| `ControlRuntime.Verdict` | src/asterun/control.py:1085-1110 | the acceptance loop says whether every criterion is met by the record |
| `ControlRuntime.CompleteTx` | src/asterun/control.py:1060-1119 | completion spends the turn and ends the attempt as specified, with the verdict `VerdictExact` states |
| `ControlRuntime.ConcludeTx` | src/asterun/control.py:923-1015 | ownership and conclusion together equal the specification, the refused cancellation included |
| `ControlTurns.PollRuns` | src/asterun/control.py:721-757 | a poll is a run of the model's steps, so every theorem over runs holds of polls |
| `ControlTurns.ErrorEndsPoll` | src/asterun/control.py:721-757 | the first Action that raises ends the poll: what comes behind it is left untouched |
| `ControlTurns.StuckEndsPoll` | src/asterun/control.py:923-1015 | an attempt whose conclusion is refused raises in each poll that reaches and owns it |
| `TurnOutcomes.FinishedIsConcluded` | src/asterun/control.py:721-757 | the turn of a finished, owned attempt that is not stuck raises nothing and tells its Task the verdict |
| `TurnOutcomes.PassedOver` | src/asterun/control.py:721-757 | an Action leased to another worker is passed over untouched and the poll goes on; before an Action's turn only want of tokens ends it |
| `TurnOutcomes.UnsentTurn` | src/asterun/control.py:721-757 | without a free slot an Action stays in the outbox, and one no longer wanted never reaches the executor |
| `TurnOutcomes.AsksOnce` | src/asterun/control.py:923-974 | the executor is asked to cancel iff the record is open and was not asked, and looked up again iff it is unresolved |
| `ControlRuntime.ControlRuntime.StartRun` | src/asterun/control.py:354-484 | run, lease, reservation and outbox row appear together or not at all |
| `ControlRuntime.ControlRuntime.CommandRun` | src/asterun/control.py:486-575 | pause, cancel, resume, takeover, return of control and grant revocation are the specified changes |
| `ControlRuntime.ControlRuntime.Submit` | src/asterun/control.py:249-290 | a known key is answered from its record, a new command and its record are stored together |
| `ControlRuntime.ControlRuntime.Observe` | src/asterun/control.py:923-974 | an observation asks for what the run wants, looks, and concludes, as specified, its refusal included |
| `ControlRuntime.ControlRuntime.Deliver` | src/asterun/control.py:759-796 | a delivery is guarded, handed over once and followed up, as specified |
| `ControlRuntime.ControlRuntime.Advance` | src/asterun/control.py:721-757 | one poll takes the Actions in order and ends at the first error, which it returns |
| `UsageLedger.FoldFindsBaseline` | src/asterun/plugin_store.py:556-578 | the backward search for the last baseline equals the forward fold |
| `UsageLedger.RecordKeeps` | src/asterun/plugin_store.py:556-578 | every stored entry equals an in-order replay of the log before it |
| `UsageLedger.DuplicateChangesNothing` | src/asterun/plugin_store.py:556-578 | the same cursor again returns the stored value, with other content it is a conflict |
| `UsageLedger.DeltasTelescope` | src/asterun/plugin_store.py:220-236 | a key's deltas sum to last minus first over each reset-delimited segment |
| `UsageLedger.DerivedExactly` | src/asterun/plugin_store.py:220-236 | a counter counts its growth iff it is newer, by sequence or else by time, and did not fall; a fall starts a segment and a late arrival moves nothing |
| `UsageLedger.ReportedExactly` | src/asterun/plugin_store.py:220-236 | a usage that is not cumulative counts as reported, an unknown one not at all, and neither moves a baseline |
| `UsageLedger.FindBaseline` | src/asterun/plugin_store.py:564-572 | the search loop finds the last baseline of the key |
| `UsageLedger.ValidateLog` | src/asterun/plugin_store.py:747-763 | the validator's forward pass accepts a log iff it replays |
| `PoolLedger.SweepKeeps` | src/asterun/plugin_store.py:461-522 | a sweep moves only rows of its binding, along legal edges, and records every move |
| `PoolLedger.SweepDecides` | src/asterun/plugin_store.py:477-522 | each row of the binding ends where its own verdict puts it |
| `PoolLedger.DecideKeepsRow` | src/asterun/plugin_store.py:485-522 | a rewritten row keeps its claim and stays well formed |
| `PoolLedger.ReleasedIsFinal` | src/asterun/plugin_store.py:485-522 | a released reservation is never rewritten |
| `PoolLedger.BillIsFinal` | src/asterun/plugin_store.py:485-522 | a positive bill is replaced only by another bill |
| `PoolRuns.AdmitsExactly` | src/asterun/plugin_store.py:340-410 | admission changes the books iff the plan is admissible; replays and refusals leave them alone |
| `PoolRuns.AdmitKeeps` | src/asterun/plugin_store.py:340-410 | admission keeps plans, bindings, reservations and histories consistent |
| `PoolRuns.BindKeeps` | src/asterun/plugin_store.py:412-429 | binding a run to a control Action keeps them consistent |
| `PoolRuns.RunKeeps` | src/asterun/plugin_store.py:340-522 | in every reachable state plans match bindings, reservations match plans and each history replays to its row |
| `PoolRuns.PoolsStayBounded` | src/asterun/plugin_store.py:316-338 | over every run whose bounded admissions respect a limit and a concurrency, through window rollovers, balance refreshes and policy changes, the bindings active over all windows stay within that concurrency and a window's use exceeds the limit by at most what settlements and corrections raised |
| `PoolOutcomes.AdmissibleExactly` | src/asterun/plugin_store.py:340-410 | a plan without an execution is admitted iff it asks for something, names a free execution, agrees with the known plan, and each pool has room in its window, its observed balance and its concurrency, totals spelled out row by row |
| `PoolOutcomes.AdmittedExactly` | src/asterun/plugin_store.py:397-410 | an admitted plan gets an execution and one held reservation per item, of its amount, policy and time, with a history that begins there; what was there stays |
| `PoolOutcomes.ReboundExactly` | src/asterun/plugin_store.py:340-369 | a plan with an execution is answered by it iff the plan is unchanged and no other run, Action or principal is named |
| `PoolOutcomes.SettlesExactly` | src/asterun/plugin_store.py:477-522 | a settlement is accepted iff it can be presented and every reservation of the binding may take it |
| `PoolOutcomes.SettledExactly` | src/asterun/plugin_store.py:477-522 | an accepted settlement books each reservation with exactly the amount reported for its key and that source, or as not applied with zero, or leaves an unlisted key's amount, and its history gains exactly that change |
| `PoolOutcomes.MarkedExactly` | src/asterun/plugin_store.py:461-475 | a mark takes only open reservations, changes status and evidence alone, and records each change |
| `PoolOutcomes.BoundExactly` | src/asterun/plugin_store.py:412-429 | a run is bound iff the execution has it already, or none and the run is free |
| `PoolSnapshot.ReachableDumpsAccepted` | src/asterun/plugin_store.py:662-763 | a dump of any reachable state passes the validator |
| `PoolSnapshot.ReachableStateBacksUp` | src/asterun/plugin_store.py:662-763 | every reachable state has a dump, and the validator accepts it |
| `PoolValidator.Validate` | src/asterun/plugin_store.py:662-763 | the validator's loops accept a dump iff every section is sound |
| `PluginStore.PluginStore.PoolTotals` | src/asterun/plugin_store.py:316-338 | the loop computes the use of one window and the active bindings over all windows |
| `PluginStore.PluginStore.CheckRoom` | src/asterun/plugin_store.py:370-396 | limit, observed balance and concurrency are checked as specified |
| `PluginStore.PluginStore.InsertRows` | src/asterun/plugin_store.py:397-410 | one reservation and one history entry per planned item, nothing else |
| `PluginStore.PluginStore.Admit` | src/asterun/plugin_store.py:340-410 | the transaction is the specified one, errors change nothing |
| `PluginStore.PluginStore.DoBindLegacy` | src/asterun/plugin_store.py:412-429 | the binding of the Action gains the run, or nothing changes |
| `PluginStore.PluginStore.DoMarkUncertain` | src/asterun/plugin_store.py:461-475 | all of the binding's rows are marked or none |
| `PluginStore.PluginStore.DoSettle` | src/asterun/plugin_store.py:477-522 | a failing settlement changes nothing, a successful one is the specified sweep, which books what `SettledExactly` states |
| `PluginStore.PluginStore.RecordObservation` | src/asterun/plugin_store.py:556-578 | the transaction is the specified one |
| `RunRecords.DispatchedAtMostOnce` | src/asterun/application.py:1901-1992 | over every execution with a crash at any write, a backend is called at most once for a run |
| `RunRecords.CallNeedsCommit` | src/asterun/application.py:1961-1992 | a call happens only after the operation was stored as dispatched |
| `RunRecords.TerminalAbsorbs` | src/asterun/application.py:2303-2375 | a terminal status stays under every recording, retry, preservation, reconciliation, cancel, handoff and restore step |
| `RunRecords.TerminalForGood` | src/asterun/application.py:2225-2544 | over whole runs a terminal status stays unless a synchronous call raises after its final report was recorded during the call |
| `RunRecords.ReopenedExactly` | src/asterun/application.py:1994-2044 | a step reopens a finished run iff it is a synchronous call that raises, its final report having been recorded during the call |
| `RunRecords.FinishedRunCanReopen` | src/asterun/application.py:1994-2044 | that happens |
| `RunRecords.FallbackNeverDisplaces` | src/asterun/application.py:2225-2238 | a worker's fallback displaces neither a retained nor a stashed richer report |
| `RunRecords.StashSurvives` | src/asterun/application.py:2410-2468 | a stashed richer report lasts through crashes until a richer report is committed |
| `RunRecords.RecordedSlotAgrees` | src/asterun/application.py:2240-2301 | after a recording the scheduler holds the slot iff the stored marks say so; after a failed one iff the preserving write went through or no slot was held |
| `RunRecords.ReplayedSlotAgrees` | src/asterun/application.py:2479-2544 | the same for retained progress |
| `RunRecords.RestoreRebuildsSlot` | src/asterun/application.py:2610-2660 | a restart rebuilds the slot from the stored marks, except exactly for an intent whose dispatch was marked and lost |
| `RunRecords.MarkedIntentLosesSlot` | src/asterun/application.py:2635-2640 | that exception is reached by one crash |
| `RunRecords.GapBounds` | src/asterun/application.py:164-168 | the backoff gap is between one and eight polls |
| `RunRecords.RetriedWithinEightPolls` | src/asterun/application.py:2470-2478 | in every reachable state a retained report is tried again within eight polls, whatever happens between them, unless a crash or another failed recording of this run intervenes |
| `RunRecords.FailuresPutOff` | src/asterun/application.py:2225-2238 | the exception is real: a failed recording before each poll puts the retry off for any number of polls |
| `RunRecords.FromCreation` | src/asterun/application.py:1901-2544 | all of this from a run's creation on: at most one call, at most one answer per digest, and the retry |
| `RunRecords.ForwardedAtMostOnce` | src/asterun/application.py:1079-1137 | for each request digest the backend is answered at most once, through crashes, lost replies, failed writes and repeated requests |
| `RunOutcomes.ReportedExactly` | src/asterun/application.py:2303-2375 | a written report gives an open run exactly its status and termination, its operation's status, its slot and its open approval, and forgets what was kept; a closed run and a dropped fallback change nothing else |
| `RunOutcomes.ApprovalExactly` | src/asterun/application.py:2340-2375 | the open approval after a report: the old one while it stays open, else the first listed request never tried, else none |
| `RunOutcomes.LostExactly` | src/asterun/application.py:2410-2468 | a report whose write fails is kept, richer ones first, retried after its gap, and leaves an open run unresolved without its slot |
| `RunOutcomes.PolledExactly` | src/asterun/application.py:2470-2544 | a kept report that is due is answered as if it came now, and kept progress leaves the run unresolved |
| `RunOutcomes.StashExactly` | src/asterun/application.py:2546-2561 | a report stashed in the run is answered the same way once no worker lives |
| `RunOutcomes.OperationsAgree` | src/asterun/application.py:2340-2375 | over every execution the operation failed iff the run failed and is completed iff it succeeded or was cancelled, unless a report ends the run between mark and commit |
| `RunOutcomes.OperationsCanPart` | src/asterun/application.py:1901-1992 | with such a report they part |
| `RunOutcomes.GapExact` | src/asterun/application.py:164-168 | the gap doubles with each failure up to eight polls |
| `RunOutcomes.RestartedExactly` | src/asterun/application.py:2610-2660 | after a restart a sent operation is what its lost process is proven to have reported, or unknown |
| `RunOutcomes.ReconciledExactly` | src/asterun/application.py:2688-2740 | a run whose worker lives is not marked unresolved, and without one exactly what was sent is |
| `RunOutcomes.UntrackedExactly` | src/asterun/application.py:2563-2592 | a run without an operation waits for reconciliation without a slot |
| `RunOutcomes.DrainedExactly` | src/asterun/application.py:2145-2186 | a queue item's turn: what is over leaves, what may not start waits, a passing intent is called once, a failing one ends failed |
| `RunOutcomes.HandedOverExactly` | src/asterun/application.py:1231-1291 | a handoff pauses a run no worker has, and resumes it to where operation and approval left it |
| `RunOutcomes.ForwardedExactly` | src/asterun/application.py:1079-1137 | an answer is sent once, for the approval open when it began, to a run that waits and is not cancelled |
| `Application.Application.RememberResult` | src/asterun/application.py:2225-2238 | the retained table changes for this run only, as specified |
| `Application.Application.PreserveFailedResult` | src/asterun/application.py:2410-2468 | the failed write's report is kept as specified and the slot given back |
| `Application.Application.RecordResult` | src/asterun/application.py:2276-2375 | recording one report changes this run only, as specified, to what `ReportedExactly` states |
| `Application.Application.ReplayResult` | src/asterun/application.py:2479-2544 | replaying a kept report changes this run only, as specified |
| `Application.Application.RetryRetained` | src/asterun/application.py:2470-2478 | each due report is retried once and on its own |
| `Dispatch.Dispatcher.MarkDispatching` | src/asterun/application.py:1901-1960 | only a queued, uncancelled intent is marked; anything else is refused untouched |
| `Dispatch.Dispatcher.CommitDispatched` | src/asterun/application.py:1961-1992 | the operation is stored as dispatched before the call |
| `Dispatch.Dispatcher.DispatchCommitted` | src/asterun/application.py:1901-1992 | mark, commit and call together |
| `Dispatch.Dispatcher.DrainQueue` | src/asterun/application.py:2145-2186 | a queue drain does to each queued run exactly one dispatch attempt, refusal, wait or removal, and nothing to any other run |
| `RunRecords.DrainCallsOnce` | src/asterun/application.py:2145-2186 | a queue drain calls a backend only for a queued, permitted intent and never a second time |
| `Dispatch.WithoutExact` | src/asterun/scheduler.py:73-74 | removing a run from the queue removes exactly it |
| `Dispatch.Dispatcher.BeginForwarding` | src/asterun/application.py:996-1021 | the attempt is stored before the answer is sent, and only once per digest |
| `Dispatch.Dispatcher.RestoreScheduler` | src/asterun/application.py:2610-2660 | a restart reconciles every run by itself, stashed results and lost processes included, rebuilds slots and queue, then drains the queue if an executor exists; it fails iff some run's write fails |
| `RunRecords.RestoreCallsNothing` | src/asterun/application.py:2610-2656 | the reconciliation of a restart calls no backend |
| `ExecutorProtocol.NextKeeps` | src/asterun/executor.py:25-77 | every step of every thread keeps the protocol invariant |
| `ExecutorProtocol.ReturnedWasApplied` | src/asterun/executor.py:29-42 | a publish that returned was applied, without error, under every interleaving |
| `ExecutorProtocol.AppliedOnceInOrder` | src/asterun/executor.py:59-72 | no update is applied twice, updates are applied in acceptance order, and at most 64 wait |
| `ExecutorProtocol.FirstErrorStops` | src/asterun/executor.py:65-71 | after an update whose application fails, nothing queued behind it is applied in any continuation until the next drain begins |
| `ExecutorProtocol.LiveIsRegistered` | src/asterun/executor.py:25-27 | a run with a live thread cannot be started again |
| `ExecutorProtocol.RaisedMayBeApplied` | src/asterun/executor.py:37-42 | a publish may raise although its update was applied |
| `ExecutorProtocol.RaisedExactly` | src/asterun/executor.py:29-42 | in every continuation a publish that raised ends up applied iff its update had been put into the queue when its thread gave up, and has been taken out since |
| `ExecutorProtocol.AcceptedExactly` | src/asterun/executor.py:29-72 | an accepted update is applied iff it is neither in hand nor queued |
| `Executor.Executor.StartRun` | src/asterun/executor.py:25-27 | starting is refused iff closed or registered |
| `Executor.Executor.Drain` | src/asterun/executor.py:59-72 | whatever the threads publish meanwhile, updates are applied in order up to the first failure; only an error-free drain forgets dead threads |
| `CheckJobs.NextKeeps` | src/asterun/check_runtime.py:34-213 | every step keeps the job table consistent and lets each job only move on |
| `CheckJobs.ExecuteKeeps` | src/asterun/check_runtime.py:34-213 | the same over whole histories with restarts |
| `CheckJobs.CancelWins` | src/asterun/check_runtime.py:135-136 | a persisted cancel never ends as completed |
| `CheckJobs.FinishedForGood` | src/asterun/check_runtime.py:125-149 | a finished job never changes again |
| `CheckJobs.NeverStartedAgain` | src/asterun/check_runtime.py:76-119 | a stored job that is not being submitted is never started |
| `CheckJobs.RestartStartsNothing` | src/asterun/check_runtime.py:34-45 | a restart leaves every job decided and starts none |
| `CheckJobs.CompletedExactly` | src/asterun/check_runtime.py:125-149 | a job becomes completed iff a completed report is recorded while nobody asked it to stop and its target and configuration still hold |
| `CheckJobs.ShownCompletedExactly` | src/asterun/check_runtime.py:125-166 | over every history a caller is shown a completed check iff the core recorded a completed report for it, unstopped and on current evidence, and the evidence still applies |
| `CheckOutcomes.RecordedExactly` | src/asterun/check_runtime.py:125-149 | how a report ends a job in hand, status by status, and that only a completed one has a verdict, the report's own |
| `CheckOutcomes.ShownVerdict` | src/asterun/check_runtime.py:125-166 | over every history a completed check is shown with exactly the verdict of the report that completed it, and any other with none |
| `CheckOutcomes.RestartMarks` | src/asterun/check_runtime.py:34-45 | a restart makes exactly the undecided jobs unknown and takes nothing up |
| `CheckOutcomes.PlacedExactly` | src/asterun/check_runtime.py:76-123 | a started job is stored as asked, its start counted once, and its caller told the outcome only if it is known |
| `CheckOutcomes.SubmissionAnswered` | src/asterun/check_runtime.py:47-123 | an answer shows a job of this run, key and request; a conflict means another request under the key; only a job stored as new changes the table or is called unknown |
| `CheckOutcomes.KnownKeyAnswered` | src/asterun/check_runtime.py:52-77 | a known key is answered from its job iff the request is the same; a new one is refused only for want of room or a failed write |
| `CheckCalls.CancelAnswered` | src/asterun/check_runtime.py:168-185 | the caller of an answered cancel never sees the check complete, unless it had before |
| `CheckCalls.SubmitRuns` | src/asterun/check_runtime.py:47-123 | a submission, whatever its answer, takes steps of the protocol |
| `CheckCalls.ShutDecides` | src/asterun/check_runtime.py:199-213 | closing leaves no job in hand, and each job that was is cancelled or unknown |
| `CheckRuntime.CheckRuntime.RecordUpdate` | src/asterun/check_runtime.py:125-149 | the stored job is the specified one, with the status and verdict `RecordedExactly` states |
| `CheckRuntime.CheckRuntime.Drain` | src/asterun/check_runtime.py:187-197 | updates in order up to the first whose write fails, then each job in hand without a worker becomes unknown |
| `CheckRuntime.CheckRuntime.Get` | src/asterun/check_runtime.py:168-185 | a cancel is stored before the drain, and the answer is the job as it stands after it |
| `CheckRuntime.CheckRuntime.Intent` | src/asterun/check_runtime.py:52-77 | a repeated key is answered or refused, a full run or table is refused, else the intent is stored |
| `CheckRuntime.CheckRuntime.Submit` | src/asterun/check_runtime.py:47-123 | after a drain a known key is answered from its job, a refusal changes nothing, and only a stored intent is started, as told to the caller |
| `CheckRuntime.CheckRuntime.Restore` | src/asterun/check_runtime.py:34-45 | every undecided job becomes unknown, no other changes |
| `CheckRuntime.CheckRuntime.CloseDown` | src/asterun/check_runtime.py:199-213 | every job is told to stop, updates are recorded, and what stays unconfirmed is unknown and no longer in hand |
| `AsciiJson.EscapedLengthExact` | src/asterun/read_scope.py:27-29 | the escaped size is the length of the escaped text |
| `AsciiJson.EscapeBound` | src/asterun/read_scope.py:27-29 | escaping costs at least one byte a character and at most six a UTF-8 byte |
| `AsciiJson.EscapePrefix` | src/asterun/read_scope.py:236-256 | a longer prefix is strictly dearer |
| `ReadScope.JsonSizeExact` | src/asterun/read_scope.py:27-29 | the size compared with the budget is the length of the serialized page |
| `ReadScope.AppendText` | src/asterun/read_scope.py:237-256 | the binary search takes the whole row if it fits, else the longest prefix that does, else nothing |
| `ReadScope.SplitLines` | src/asterun/read_scope.py:157-165 | the generator's loop yields the specified lines |
| `ReadScope.LinesExact` | src/asterun/read_scope.py:157-165 | lines join back to the text up to a missing final newline, and are as many as counted |
| `ReadPaging.Read` | src/asterun/read_scope.py:258-289 | arguments are refused iff out of range; a page delivers the next steps, makes progress, is as full as it can be and stays within 64 KiB |
| `ReadPaging.PagingRoundTrip` | src/asterun/read_scope.py:258-289 | following the cursors with any line counts rebuilds exactly the part of the file passed, and the whole file at the end |
| `ReadPaging.PagingEnds` | src/asterun/read_scope.py:258-289 | a conversation has at most one page per character and line of the file |
| `ReadPaging.FlaggedWhole` | src/asterun/read_scope.py:237-256 | a whole line is flagged truncated iff it misses the budget by exactly one byte |
| `ReadPaging.FlaggedWholeHappens` | src/asterun/read_scope.py:237-256 | one line of 61249 letters is such a line |
| `ReadSearch.Search` | src/asterun/read_scope.py:291-328 | the loops return the matching lines from the cursor on, make progress, stop only when full and stay within 64 KiB |
| `ReadSearch.HitsFound` | src/asterun/read_scope.py:291-328 | every hit is in range and there are at most as many as characters |
| `ReadSearch.HitsExact` | src/asterun/read_scope.py:291-328 | the hits are exactly the first places of the query in the lines that hold it, of all files |
| `ReadSearch.ExcerptHolds` | src/asterun/read_scope.py:308-312 | the excerpt holds the match, at most a hundred characters into it, and the rest of the line |
| `ReadSearch.SearchCoversHits` | src/asterun/read_scope.py:291-328 | following search cursors yields every matching line once and in order, in finitely many pages |
| `ReadSearch.List` | src/asterun/read_scope.py:219-234 | a page lists the names from the offset on, as many as the limit and the budget allow |
| `ReadSearch.ListCoversNames` | src/asterun/read_scope.py:219-234 | following list offsets yields every name once and in order |
| `QualityFlow.AcceptedExactly` | src/asterun/stage_gates.py:51-91 | stage and dependency gates only lower: PASSED survives iff both are met |
| `QualityFlow.FindingsEmpty` | src/asterun/workflows.py:100-155 | there are no findings iff every check passed |
| `QualityFlow.RememberExact` | src/asterun/quality_runtime.py:84-87 | remembering adds what is not open and drops nothing |
| `QualityRuns.TurnGood` | src/asterun/quality_runtime.py:125-246 | one advance keeps the run limit, the evidence behind acceptance, and leaves the flow's next intent unused |
| `QualityRuns.NextKeeps` | src/asterun/quality_runtime.py:34-246 | polls, looks, starts, judgments, cancels, handoffs, external changes and run reports keep the invariant of all tasks |
| `QualityRuns.RunsBounded` | src/asterun/quality_runtime.py:264-265 | the runs of a task never exceed its limit over any history |
| `QualityRuns.RunsHaveIntents` | src/asterun/application.py:1736-1773 | every run counted was committed by its own intent, so a history commits at most the runs still allowed |
| `QualityRuns.PollIssuesNew` | src/asterun/quality_runtime.py:273-282 | a review or repair is always committed under an unused key |
| `QualityRuns.AdvanceFalls` | src/asterun/quality_runtime.py:144-246 | an advance that changes the phase or starts a run lowers the measure |
| `QualityRuns.MovesBounded` | src/asterun/quality_runtime.py:125-246 | over any history phase changes are bounded by the measure plus twice the explicit starts |
| `QualityRuns.CompletedExactly` | src/asterun/quality_runtime.py:176-240 | a flow completes iff run and implementation succeeded, the target was captured unchanged before and after passing checks, gates and dependencies are met, and a clean bound review stands or has just been read |
| `QualityRuns.PassedIsReviewed` | src/asterun/quality_runtime.py:202-244 | in every reachable state a PASSED task that was ever under a flow has completed it on a clean review of the flow's target |
| `QualityRuns.PassedWhenLookedAt` | src/asterun/quality_runtime.py:111-123 | after any history whoever reads a task is told PASSED iff its flow completed on a clean review, the target captured now is that one, authorization and checks hold now, and stages and dependencies are met |
| `QualityRuns.KeyStaysBound` | src/asterun/quality_runtime.py:37-42 | a flow's idempotency key stays bound to the request it was first used for |
| `QualityRuns.ClosedExactly` | src/asterun/quality_runtime.py:223-228 | a clean review closes an open finding by name iff it follows a repair |
| `QualityOutcomes.BeginsExactly` | src/asterun/quality_runtime.py:144-299 | an advance begins a repair iff the flow has come to it, consented, both budgets have room, its intent is new and nothing refuses, and a review likewise; what the run is bound to |
| `QualityOutcomes.UnrepairedIsPaused` | src/asterun/quality_runtime.py:294-299 | a flow that did not consent to repairs hands the task to a human instead, with no run |
| `QualityOutcomes.CalledInVain` | src/asterun/quality_runtime.py:248-272 | a review that is called for and may not begin pauses the task, blocked iff the flow itself refuses |
| `QualityOutcomes.RepairsBounded` | src/asterun/application.py:1677-1773 | over every history repairs stay within their limit, and a flow without consent never has one |
| `QualityOutcomes.OpensExactly` | src/asterun/quality_runtime.py:34-76 | a flow opens iff the task is in core hands with no flow under way, a succeeded implementation and checks within the targets; a known key is answered iff its request is the same |
| `QualityOutcomes.UnfinishedRunStops` | src/asterun/quality_runtime.py:144-173 | a failed or cancelled run blocks its flow, an unresolved one goes to a human, a running one is waited for |
| `QualityOutcomes.StaleExactly` | src/asterun/quality_runtime.py:144-200 | an advance makes a flow stale iff the target moved or someone said so |
| `QualityOutcomes.InvalidatedExactly` | src/asterun/quality_runtime.py:111-123 | a look makes a completed flow stale iff its evidence does not hold now |
| `QualityOutcomes.ReviewRemembered` | src/asterun/quality_runtime.py:202-222 | a review with findings or failing checks is kept, and everything found is open |
| `QualityOutcomes.RepairTaken` | src/asterun/quality_runtime.py:168-173 | after a repair the flow checks the repaired run on the target captured then |
| `QualityOutcomes.StagesExactly` | src/asterun/quality_runtime.py:184-200 | a flow awaiting stages completes iff checks, stages and dependencies are met, and shows exactly that |
| `QualityOutcomes.LoweredExactly` | src/asterun/stage_gates.py:51-91 | stages lower a PASSED to rejected iff one failed, else to pending |
| `QualityOutcomes.EvaluatedExactly` | src/asterun/workflows.py:100-155 | what the checks say of an implementation, value by value |
| `QualityOutcomes.ErrorPauses` | src/asterun/quality_runtime.py:125-142 | an error pauses what is stored, blocked iff the flow itself refused and the run is over |
| `QualityOutcomes.CancelStops` | src/asterun/application.py:921-935 | a cancel blocks a flow under way and keeps its evidence |
| `QualityRuntime.EvaluateChecks` | src/asterun/workflows.py:100-155 | the evaluation loop gives the specified acceptance and findings |
| `QualityRuntime.ApplyGate` | src/asterun/stage_gates.py:65-90 | the loop over stages gives the specified acceptance |
| `QualityRuntime.QualityRuntime.Repair` | src/asterun/application.py:1677-1773 | a repair commits run, counters, phase and intent together, or stops as specified, and begins exactly when `BeginsExactly` says |
| `QualityRuntime.QualityRuntime.Review` | src/asterun/quality_runtime.py:248-292 | a review commits run, counter, phase and intent together, or stops as specified |
| `QualityRuntime.QualityRuntime.ReviewPhase` | src/asterun/quality_runtime.py:202-244 | reading a review reply is the specified step |
| `QualityRuntime.QualityRuntime.AdvanceOne` | src/asterun/quality_runtime.py:144-246 | one advance is the specified outcome, with its error |
| `QualityRuntime.QualityRuntime.AdvanceTask` | src/asterun/quality_runtime.py:128-142 | an error pauses what is stored by then, as blocked only where the source says so |
| `QualityRuntime.QualityRuntime.Advance` | src/asterun/quality_runtime.py:125-142 | one poll over all tasks is a run of the model |
| `QualityRuntime.QualityRuntime.ValidateEvidence` | src/asterun/quality_runtime.py:111-123 | completed evidence that no longer holds becomes stale |
| `QualityRuntime.QualityRuntime.Inspect` | src/asterun/application.py:831-845 | reading a task checks its evidence, its stages and its dependencies in this order, as specified |
| `QualityRuntime.QualityRuntime.StartFlow` | src/asterun/quality_runtime.py:34-76 | a repeated key is answered or is a conflict, refusals come in the source's order and change nothing, and an opened flow is advanced at once |

## Left out

- SQLite, savepoints, archives and file replacement: a transaction is atomic.
- JSON Schema validation, RFC 8785 canonical form and SHA-256: digests are injective values.
- Backends, adapters, subprocesses, sandboxes, sockets and Git: their answers are arguments.
- Quality steps, capability plans, plugin admission and context budgets inside `control.py`, and the context-budget namespace of the backup validator: they rest on code outside this scope.
- Event, session, evidence and artifact entities written beside control transactions, and compare-and-set revisions of commands.
- Foreign writes to entities: `put` is modelled for the kinds the backup validator reads, and not for Operation and Reservation, which have operations of their own.
- ControlLedger.SettleKeeps: one-directional; the exact condition is `SettleWithinExactly`.
- The 64 KiB limit on receipt evidence and the 4000-character limit on review findings.
- Application.Application.RecordResult: a report of a raced completion does not mark the run as cancel-requested, and native references and summaries are not kept apart.
- ControlCommands.TasksExactly: criterion identifiers and validators are not modelled, and a budget has the one hard turn limit the source accepts.
- Session locks, quota snapshots and probe state in `plugin_store.py`.
- Opening, hashing and path checks of the reader: file contents and the manifest are given.
- RunRecords.ForwardedAtMostOnce: requests are told apart by digest, so two different requests with one digest count as one.
- Approval policies and batches beyond the context check and the forwarding itself.
- `handoff.py`, `context_transition.py` and segment continuation: a restored terminal run stays as it is.
- QualityFlow: the review prompt, the choice between review backend and substitute (an answer says whether one is available), `review_status` and `evidence_input_hash`; the acceptance of a task without a flow is an arbitrary value, and runs such a task begins outside a flow are not counted.
- QualityRuntime.QualityRuntime.StartFlow: every modelled task has a current run; the refusal of a task without one is left out.
- ControlRuntime.DispatchGuard: the grant's subject, the action hash and the parameter digest are not compared.
- ControlSnapshot.Validate: schema verdicts are a flag of each row, and the context-budget namespace is left out.
- PoolValidator.Validate: ids and columns of the usage rows are left out.
- ControlTurns: one clock value and one set of foreign answers per Action and poll.
- CheckRuntime.CheckRuntime.Get: the caller's task and run are taken to be the job's own.
- CheckJobs: the result cache, the checks themselves and a failing write while lost jobs are marked unknown; a report is an arbitrary update.
- Liveness beyond the bounded retry and the termination measures.
