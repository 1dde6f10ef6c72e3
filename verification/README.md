# Models of the CTFZone control planes

Dafny models of the parts of CTFZone in which several processes, crashes and clocks meet, with proofs of
what those parts promise. `dafny verify dfyconfig.toml` checks all of it.

## What is modelled

**Runtime control plane.** `RuntimeRows` has the PostgreSQL rows of instances, commands and servers, and every
transaction on them as one atomic function. `RuntimeProtocol` makes a transition system of them: any number of
controllers, each working on one command with the snapshot it read outside any transaction and each with its own
journal; crashes, recovered claims and zombie claimants; SSH requests that reach their host at any later time, any
number of times; hosts that expire and sweep on their own (`RemoteHelper`); and the API's own writes.
`RuntimeInvariant`, `RuntimeSteps` and `RuntimeSafety` hold the inductive invariant, `RuntimeTheorems` what follows
for whole runs, `RuntimeProgress` what is always possible. `RuntimeTables` and `RuntimeWorker` are the same code in
its own form: tables updated statement by statement, `execute_*` and the command loop with their journal and remote
calls. Their contracts are stated with the same functions, and each command provably takes the turn that the
transition system takes. `RuntimeEffects` reads every transaction off the stored columns, without those functions:
when it writes, what it writes, what it leaves alone.

**Operation journal.** `Journal` replays records, `JournalFile` has bytes, lines and torn tails (`TextEncoding` is
UTF-8), `OperationJournal` appends, compacts, cleans up and reconciles in place, with a record of every content the
file has had.

**Object storage.** `StorageRows`, `StorageProtocol` and `StorageSafety` model several maintenance workers that lock
rows, an API, clients with signed grants and a store whose deletions may be late; `StorageTheorems` has the theorems,
`StorageMaintenance` the worker's code on its tables, `StorageEffects` what each transaction writes, and
`StorageProgress` what is always possible.

**Smaller cores.** Canonical request streams (`CanonicalJson`, `CanonicalOrder`, `RequestHasher`, `CreateRequests`),
the gateway's token bucket (`TicketLimiter`, `TicketDecisions`, `ClientTicketLimiter`), the API's window limiter
(`WindowLimiter`, `RateLimiter`), submissions, attempts and changing teams (`Submissions`, `Attempts`,
`TeamProgress`), dynamic scores (`DynamicScore`) and SSH identities (`IdentityKeys`).

## Assumptions

- Each SQL transaction is atomic and serializable; generated UUIDs and claim tokens are new; `ON CONFLICT DO NOTHING`
  means that nothing is inserted beside an open duplicate.
- A host does what `remote-helper/README.md:15-24` and the helper's code say: tombstones are permanent, stale
  generations are refused. A host that shows neither container nor tombstone is like one that never saw the UUID.
- Clocks do not go back, and a host's clock is at most `lag` seconds from the database's. The store accepts a signed
  PUT at most `skew` seconds after its grant expired, its body lasts at most `maxUpload` seconds, and a copy to the final
  key takes effect while the API still holds the row's lock.
- Each controller has a journal of its own; the source takes no lock on the file.
- A controller starts one SSH process per call (services/controller/src/remote.rs:145), so a launch is carried out at
  most once; only the statements on inspections use it.
- A record's text is a UTF-8 JSON object on one line. No proper beginning of it parses, nor does a line that merges a
  torn tail with a record.
- `ssh-keygen` never repeats a key; after a power failure a directory entry is one of the values it has had since the
  last directory fsync.
- Evaluating a flag depends on the flag and the text only. Scores and token counts are exact numbers.
- Every string and collection of a request is shorter than 2^64, and no JSON object has a key twice.

## Where the code promises less than it seems to

- `finish_inspection` releases a slot on a mere "absent" answer, without a tombstone, and `reconcile_instance`
  (services/api/src/routes/runtimes.rs:1034) keeps the instance's generation, so a delayed launch may still start the
  workload of a released slot: `RuntimeOutrun.InspectionReleaseCanBeOutrun`. The paragraph on delayed requests in
  remote-helper/README.md:21-24 does not cover this path. `RuntimeInspection.SafeExactlyWhenHarmless` says exactly
  when such a release is safe, and `RuntimeInspection.AnsweredReleaseIsSafe` that it is in the ordinary case,
  `RuntimeInspection.ExpiredReleaseIsSafe` that it is once the deadline has passed.
- The journal is read as one UTF-8 text (services/controller/src/journal.rs:264), and names of hosts need not be ASCII
  (services/api/src/routes/runtimes.rs:1577). A write cut inside a character leaves a file from which nothing is read
  (`JournalFile.SplitNameSpoilsTheJournal`), which no append and no compaction repairs, and every controller session
  then ends at the reconciliation it starts with. `JournalFile.AppendIsAtomicExactlyWhenAscii` says exactly which
  records are safe.
- An append behind a torn journal line, an acknowledgement included, succeeds and is lost
  (`JournalFile.AppendIsReplayedExactlyWhenIntact`); the write-ahead guarantee is stated for journals in which that has
  not happened.
- In team logic the partial of a member whom an administrator puts into another team, or into none, blocks the team
  until that user returns or the user's submissions are deleted (`TeamProgress.ReassignmentBlocks`,
  `TeamProgress.SolvableExactlyWithoutStrays`). Removing a member deletes them, and blocks nothing.
- A power failure during the deletion of an identity leaves a retired key without its rotation marker in some state
  of every completed deletion, unless the key was durably gone before (`IdentityKeys.IdentityStore.Delete`).
- A failed extension writes `observed_state='ready'` (services/controller/src/worker.rs:1771-1775): `ready` is not a
  claim that a workload runs, and none of the theorems treats it as one.

## Model

| member | source | states |
|---|---|---|
| RuntimeTheorems.ReleasedSlotsStayEmpty | services/controller/src/worker.rs:1299-1356 | In every run, with crashes, recovered claims and arbitrarily late or repeated SSH deliveries: once `finish_termination`, `reject_start` or `expire_unstarted_instance` has made an instance inactive, no host runs a workload for it, then or ever after. |
| RuntimeTheorems.ReleaseIsQuiet | services/controller/src/worker.rs:1530-1616 | Every step that makes an instance inactive, other than the commit of an inspection, leaves it never placed or permanently fenced on its host. |
| RuntimeTheorems.RejectionIsQuiet | services/controller/src/worker.rs:1530-1616 | `observed_state='requested'` in the update's guard means never placed: the rejected instance has no host. |
| RuntimeTheorems.LocalReleaseIsQuiet | services/controller/src/worker.rs:842-849 | A termination that finds no host in its stale snapshot is right: the row has none either. |
| RuntimeTheorems.CommitReleaseIsQuiet | services/controller/src/worker.rs:795-833 | A termination commits only after its host is fenced; the commits of starts and extensions release nothing. |
| RuntimeTheorems.OneHostPerInstance | services/controller/src/worker.rs:654-683 | Over a whole run, all remote calls for one instance, by whatever controller and generation, go to one host, and that host is the stored placement. |
| RuntimeTheorems.PlacementPrecedesTheCall | services/controller/src/worker.rs:654-710 | When a call is sent, the database already names its host as the instance's placement, however old the worker's snapshot is. |
| RuntimeTheorems.SnapshotPlacementIsCurrent | services/controller/src/worker.rs:579-611 | While a worker's claim token is current, the placement in the snapshot it read outside any transaction equals the stored one at the moment it acts on it. |
| RuntimeTheorems.LostClaimWritesNothing | services/controller/src/worker.rs:1681-1743 | No step of a worker whose claim is lost changes a row. |
| RuntimeTheorems.LostClaimStaysLost | services/controller/src/worker.rs:555-577 | A lost claim never becomes current again: tokens are issued once. |
| RuntimeTheorems.OldClaimantIsPowerless | services/controller/src/worker.rs:241-282 | After a claim is recovered, nothing the old claimant still does for that command ever reaches the tables. |
| RuntimeTheorems.FinishedForever | services/controller/src/worker.rs:1642-1743 | A finished command row never changes again, in any continuation: each command finishes once, with one outcome. |
| RuntimeTheorems.CapacityIsRespected | services/controller/src/worker.rs:1070-1097 | In every reachable state a host carries at most the largest capacity it has ever had of active instances, hence at most its capacity when no capacity is lowered, restarts of placed starts included. |
| RuntimeTheorems.IntentPrecedesTheCall | services/controller/src/worker.rs:691-703 | Whenever an operation is sent, replaying the sender's journal gives an unacknowledged intent for that instance and command with the same operation, generation and host. |
| RuntimeTheorems.RecordOutlivesTheSender | services/controller/src/journal.rs:213-256 | That record survives crashes, compactions, degraded clean-ups and reconciliations for as long as the claim it was sent under is current. |
| RuntimeTheorems.FailedStartIsCleanedUp | services/controller/src/worker.rs:1752-1807 | A start that fails for good on its current active instance commits, in the same step, an open terminate command at the next generation: due at once, never attempted, with its reason. |
| RuntimeTheorems.NeverTwoTerminations | services/controller/src/worker.rs:438-519 | In every reachable state an instance has at most one open terminate command. |
| RuntimeSafety.RunKeeps | services/controller/src/worker.rs:521-596 | The invariant (rows, tokens, snapshots, requests, replies, hosts, journals) holds in every world of every run. |
| RuntimeSafety.StepKeeps | services/controller/src/worker.rs:521-596 | Every one of the 34 kinds of step keeps the invariant and takes back nothing that was recorded. |
| RuntimeSafety.ClaimKeepsInv | services/controller/src/worker.rs:555-577 | Claiming keeps the invariant and gives a token that no worker is working under. |
| RuntimeSafety.LoadKeeps | services/controller/src/worker.rs:598-611 | The snapshot read fits the invariant although it is outside any transaction. |
| RuntimeSafety.DecideKeeps | services/controller/src/worker.rs:613-655 | The decisions taken from the snapshot keep the invariant. |
| RuntimeSafety.PlaceKeeps | services/controller/src/worker.rs:1113-1194 | Placing writes the host before any call and never over another one. |
| RuntimeSafety.CommitStartKeeps | services/controller/src/worker.rs:1196-1263 | `finish_start` is safe without testing `active`. |
| RuntimeSafety.CommitStopKeeps | services/controller/src/worker.rs:1299-1356 | `finish_termination` after a confirmed removal keeps the invariant. |
| RuntimeSafety.CommitInspectionKeeps | services/controller/src/worker.rs:1405-1528 | All three outcomes of `finish_inspection` keep the invariant. |
| RuntimeSafety.RejectKeeps | services/controller/src/worker.rs:1530-1616 | `reject_start` and `expire_unstarted_instance` keep the invariant. |
| RuntimeSafety.RetryKeeps | services/controller/src/worker.rs:1745-1833 | A retry, a final failure and its clean-up command keep the invariant. |
| RuntimeSafety.LogIntentKeeps | services/controller/src/journal.rs:88-104 | After `intent` the journal replays the operation that is about to be sent. |
| RuntimeSafety.AckKeeps | services/controller/src/journal.rs:130-146 | An acknowledgement costs no current claimant its record. |
| RuntimeSafety.CompactKeeps | services/controller/src/journal.rs:336-389 | A compaction at any moment keeps every record that the invariant needs. |
| RuntimeSafety.CleanupDoneKeeps | services/controller/src/journal.rs:148-211 | A degraded clean-up keeps the record under its new phase. |
| RuntimeSafety.AckFinishedKeeps | services/controller/src/journal.rs:213-256 | An acknowledgement decided from database state read earlier is still right when it is written. |
| RuntimeSafety.DeliverKeeps | remote-helper/README.md:15-24 | A request that reaches its host late, or again, keeps the invariant. |
| RuntimeSafety.ApiReconcileKeeps | services/api/src/routes/runtimes.rs:1034-1084 | The one API command that keeps the instance's generation is safe for the invariant. |
| RuntimeSafety.ApiCreateKeeps | services/api/src/routes/runtimes.rs:234-400 | A new instance is active, requested, unplaced, at generation 1, and has exactly one command, its pending start. |
| RuntimeSafety.ApiExtendKeeps | services/api/src/routes/runtimes.rs:434-563 | An extension request that is taken raises the generation, and its command carries it, above every earlier command of the instance. |
| RuntimeSafety.ApiTerminateKeeps | services/api/src/routes/runtimes.rs:1086-1149 | A termination request that is taken raises the generation in the same way, and finds no open termination. |
| RuntimeProgress.NeverStuck | services/controller/src/worker.rs:579-984 | In every world that keeps the invariant a controller working on a command can take a step, other than to give up, if and only if it is not waiting for an answer or, with a new start, for a host with room. |
| RuntimeProgress.AnyoneMayCrash | services/controller/src/worker.rs:241-282 | In every world any controller may crash and claims may be recovered: the theorems on runs exclude neither. |
| RuntimeProgress.AnyRequestMayArrive | remote-helper/README.md:15-24 | In every world every request ever sent may arrive, again too, on any clock within the lag, with any outcome the helper allows. |
| RuntimeDatabase.MarkStartingKeeps | services/controller/src/worker.rs:1113-1152 | Only the holder of the start claim at the first generation ever gives an instance a host. |
| RuntimeDatabase.FinishStartKeeps | services/controller/src/worker.rs:1196-1263 | Rows move only forward; the placement stays what it was; the command is no longer claimed once it is applied. |
| RuntimeDatabase.RejectStartKeeps | services/controller/src/worker.rs:1530-1616 | Rows move only forward, and what becomes inactive has no host. |
| RuntimeDatabase.FinishTerminationKeeps | services/controller/src/worker.rs:1299-1356 | Rows move only forward; an applied termination leaves the row inactive and its claim released. |
| RuntimeDatabase.CreateTerminationKeeps | services/controller/src/worker.rs:438-519 | A termination command is created exactly for an active instance without an open one, at a raised generation above every earlier command, due at once and with the reason given. |
| RuntimeDatabase.FinishInspectionKeeps | services/controller/src/worker.rs:1405-1528 | Rows move only forward; placements and servers stay. |
| RuntimeDatabase.ScheduleRetryKeeps | services/controller/src/worker.rs:1745-1833 | Rows move only forward, and the claim is released. |
| RuntimeDatabase.PlacementKeepsPeak | services/controller/src/worker.rs:1070-1097 | A placement under the capacity check keeps every host within its largest capacity. |
| RuntimeDatabase.RequestExtensionKeeps | services/api/src/routes/runtimes.rs:434-563 | The database invariant survives an extension request. |
| RemoteHelper.HelperNeverForgets | remote-helper/ctfzone-runtime-helper:798-1061 | A tombstone is permanent, a fenced UUID stays fenced, only an accepted `ensure-instance`, before its deadline, starts a container, and a confirmed stop means fenced. |
| RemoteHelper.AcceptedExactly | remote-helper/ctfzone-runtime-helper:798-1061 | Exactly which requests can be carried out: a launch before its deadline of a UUID without tombstone whose state is not newer, a stop that is not behind the state, a new deadline for a running container that is not newer. |
| RemoteHelper.AnsweredEffect | remote-helper/ctfzone-runtime-helper:798-1061 | What a request that was carried out leaves: a container of its generation, a tombstone and nothing else, or a state moved to the generation. |
| RemoteHelper.HostNeverLaunches | remote-helper/ctfzone-runtime-helper:595-686 | Timers, sweeps and vanishing containers never start a workload and never un-fence one. |
| RuntimeInspection.SafeExactlyWhenHarmless | services/controller/src/worker.rs:1405-1448 | Each launch that was sent being carried out at most once, and refused by its host once its deadline has passed there: after every run an inactive instance never runs again if and only if its host runs nothing now and either would refuse its start or no launch for it, with a deadline still ahead by some host's clock, is to be carried out or about to be sent. |
| RuntimeInspection.AnsweredReleaseIsSafe | services/controller/src/worker.rs:1405-1448 | The ordinary case: when every launch that was sent has been answered, nobody is about to send one and nothing runs, the released slot stays empty, tombstone or not. |
| RuntimeInspection.ExpiredReleaseIsSafe | remote-helper/ctfzone-runtime-helper:808-810 | The case that the row decides: an instance that runs nothing and whose desired expiry has passed by every host's clock never runs again, whatever is in flight. |
| RuntimeInspection.RunDeadlines | services/controller/src/worker.rs:985-1010 | Every snapshot, and every launch that was sent, has at most the deadline of the stored row. |
| RuntimeInspection.RunLaunches | services/controller/src/worker.rs:683-699 | A claimed start sends at most one launch: whoever may yet send one has sent none under its claim. |
| RuntimeInspection.HarmlessStays | services/controller/src/worker.rs:1405-1448 | That condition, once true of an inactive instance, is kept by every step that carries out no launch twice. |
| RuntimeOutrun.InspectionReleaseCanBeOutrun | services/controller/src/worker.rs:1405-1448 | A concrete run, no launch carried out twice, in which `finish_inspection` releases a slot on an "absent" answer and the delayed launch arrives one step later: the release theorem does not extend to it. |
| RuntimeEffects.ClaimWrites | services/controller/src/worker.rs:555-577 | A claim writes the token, the time and one more attempt into its row; the job is a copy of the row. |
| RuntimeEffects.StartMarks | services/controller/src/worker.rs:1113-1152 | Column by column: applies exactly under a held claim on an active running row of the generation, and then writes host, state and time. |
| RuntimeEffects.StartFinishes | services/controller/src/worker.rs:1196-1263 | Applies exactly under a held claim on a row of the generation, active or not; the row is then ready on that host until the confirmed time and the command completed. |
| RuntimeEffects.StartRejects | services/controller/src/worker.rs:1530-1616 | Cancels under a held claim, and gives the slot back exactly when the active row still waits for its start. |
| RuntimeEffects.StopMarks | services/controller/src/worker.rs:1265-1297 | Applies exactly under a held claim on an active row of the generation, and then writes state and time only. |
| RuntimeEffects.StopFinishes | services/controller/src/worker.rs:1299-1356 | Frees the slot: `expired` when the expiry has passed or the deadline is the reason, `terminated` otherwise. |
| RuntimeEffects.TerminationCreates | services/controller/src/worker.rs:438-519 | One terminate at the next generation, due at once, never attempted, under the row's revisions and the given reason, exactly for an active instance that is not being terminated; otherwise nothing. |
| RuntimeEffects.ExtensionFinishes | services/controller/src/worker.rs:1358-1403 | Writes the expiry and the time only, and completes the command. |
| RuntimeEffects.InspectionFinishes | services/controller/src/worker.rs:1405-1528 | What becomes of row and queue for each answer, by `absent` and `ready`; nothing without the claim or on a row that has moved on. |
| RuntimeEffects.RetrySchedules | services/controller/src/worker.rs:1745-1833 | Waits its back-off while attempts remain; then failed, with the state of each kind, and for a start a termination unless there is one. |
| RuntimeEffects.CommitWrites | services/controller/src/worker.rs:716-729 | The committing step of the transition system, by the fields of the answer: ready, stopped, extended, inspected, or an error that writes nothing. |
| RuntimeEffects.CommitLeadsTo | services/controller/src/worker.rs:712-769 | Where the committing step goes on, by claim, row and answer: a launch whose row has moved on is stopped again before its command is cancelled, and what was answered is acknowledged. |
| RuntimeEffects.InspectionEnqueued | services/controller/src/worker.rs:377-425 | Exactly for an active, running, placed instance, ready, starting or unknown, that is not past its expiry, long enough unobserved, and has no open command; due at once at its generation. |
| RuntimeEffects.ReconciliationRequested | services/api/src/routes/runtimes.rs:1034-1084 | Exactly for a placed instance without an open reconciliation of its generation; the generation stays. |
| RuntimeEffects.InstanceCreated | services/api/src/routes/runtimes.rs:234-400 | All columns of a new instance and of its start. |
| Retries.BackoffDoubles | services/controller/src/worker.rs:1925-1928 | The table of delays is five seconds doubled once per attempt, at least once, and never more than five minutes. |
| RuntimeTables.Tables.ClaimCommand | services/controller/src/worker.rs:555-577 | Some due pending row is claimed under a token that was never issued, or there is none. |
| RuntimeTables.Tables.LockCommandClaim | services/controller/src/worker.rs:1681-1697 | True exactly while the row is claimed under this worker's token. |
| RuntimeTables.Tables.RecoverStaleClaims | services/controller/src/worker.rs:241-282 | A claim stays if and only if there is a cutoff and it was claimed at it or after it; every other claim is pending now, with its attempts, and no other row changes. |
| RuntimeTables.Tables.FinishCommand | services/controller/src/worker.rs:1642-1743 | A finished status, written only under a held claim. |
| RuntimeTables.Tables.SelectRemoteServer | services/controller/src/worker.rs:1070-1097 | The least loaded enabled host of the pool with room that nobody else has locked, or none when there is none. |
| RuntimeTables.Tables.MarkStarting | services/controller/src/worker.rs:1113-1152 | The whole effect of the transaction, and whether it placed the instance. |
| RuntimeTables.Tables.SelectAndMarkStarting | services/controller/src/worker.rs:1154-1194 | Places on a host with room, fails when every host with room is locked, and reports a moved row without writing. |
| RuntimeTables.Tables.FinishStart | services/controller/src/worker.rs:1196-1263 | The whole effect of the transaction, and which of its three ends it took. |
| RuntimeTables.Tables.RejectStart | services/controller/src/worker.rs:1530-1616 | The whole effect of either transaction. |
| RuntimeTables.Tables.MarkStopping | services/controller/src/worker.rs:1265-1297 | The whole effect of the transaction, and whether the row was still current. |
| RuntimeTables.Tables.FinishTermination | services/controller/src/worker.rs:1299-1356 | The whole effect of the transaction, and which of its three ends it took. |
| RuntimeTables.Tables.CreateTermination | services/controller/src/worker.rs:438-519 | The whole effect of the transaction, including that it does nothing beside an open termination; its columns are stated by `RuntimeEffects.TerminationCreates`. |
| RuntimeTables.Tables.FinishExtension | services/controller/src/worker.rs:1358-1403 | The whole effect of the transaction, and which of its three ends it took. |
| RuntimeTables.Tables.FinishInspection | services/controller/src/worker.rs:1405-1528 | The whole effect of the transaction for each of its three sightings. |
| RuntimeTables.Tables.ScheduleRetry | services/controller/src/worker.rs:1745-1833 | The whole effect of the transaction: back-off, or failure with its clean-up. |
| RuntimeTables.Tables.RetryBackoffSeconds | services/controller/src/worker.rs:1925-1928 | Doubling from ten seconds, capped at five minutes, for every number of attempts. |
| RuntimeTables.Tables.CreateTerminations | services/controller/src/worker.rs:427-436 | One new terminate command at a raised generation for each listed instance, due at once, never attempted, with the reason given; every other row is unchanged. |
| RuntimeTables.Tables.EnqueuePolicyTerminations | services/controller/src/worker.rs:307-345 | Exactly the active stopped or disallowed instances without an open or recently failed termination get one; afterwards none is left without. |
| RuntimeTables.Tables.EnqueueOverdueTerminations | services/controller/src/worker.rs:347-375 | The same for active instances whose expiry has passed. |
| RuntimeTables.Tables.EnqueueSafetyTerminations | services/controller/src/worker.rs:307-375 | Read off the columns: exactly the active instances that are stopped, switched off or past their expiry, without an open or recently failed termination, get one that is due at once, with the deadline or the policy as its reason; afterwards none is left without. |
| RuntimeWorker.Worker.CallHost | services/controller/src/worker.rs:691-729 | A call is made only after its intent is journaled; it counts as answered only if the answer passes every check of its operation and is journaled too. |
| RuntimeWorker.Worker.RemoteExecute | services/controller/src/worker.rs:704-706 | May only be called while the journal replays the intent, unless an earlier record was lost behind a torn line. |
| RuntimeWorker.Worker.ExecuteStart | services/controller/src/worker.rs:613-769 | Cancelled, expired, rejected or launched exactly as its columns say. Nothing is sent behind a closed gate; a completed start leaves a ready row within its maximum lifetime on the host that confirmed it; it fails only over a failed write or call, an unknown host or none with room, or an answer that is unacceptable or goes beyond the maximum lifetime. |
| RuntimeWorker.Worker.PlaceAndLaunch | services/controller/src/worker.rs:650-690 | A stored placement is reused; a new one is chosen only when there is none; a moved row cancels the command. |
| RuntimeWorker.Worker.Launch | services/controller/src/worker.rs:691-769 | When the row has moved on during the launch, the workload is stopped again before the command is cancelled. |
| RuntimeWorker.Worker.ExecuteTerminate | services/controller/src/worker.rs:771-852 | A completed termination of an active instance made exactly the stop call of its host, had it confirmed, and left the row inactive and stopped: expired if and only if its expiry had passed or its deadline was the reason, and terminated otherwise. |
| RuntimeWorker.Worker.ExecuteExtend | services/controller/src/worker.rs:854-920 | A completed extension was confirmed at the command's generation and moved the expiry to the confirmed time, in the future and within the maximum lifetime; of the instance only the expiry and the time of observation change. |
| RuntimeWorker.Worker.ExecuteInspect | services/controller/src/worker.rs:922-984 | By the fields of the answer: present and ready leaves the row active and ready and no command new; present and not ready leaves it active, `cleanup_pending` and with an open terminate; absent leaves it inactive, expired if and only if its expiry has passed or it was to be stopped, and failed otherwise. |
| RuntimeWorker.Worker.ExecuteCommand | services/controller/src/worker.rs:579-596 | A missing instance fails, a stale generation cancels, and otherwise the command takes its kind's turn; other commands and instances are left alone. |
| RuntimeWorker.Worker.ProcessNext | services/controller/src/worker.rs:530-551 | One iteration takes a due command and leaves it finished, or pending at a strictly later time with attempts left; it adds at most one pending termination, and none when it served a termination. |
| RuntimeWorker.Worker.ProcessAvailableCommands | services/controller/src/worker.rs:521-553 | The loop ends although inspections and failed starts enqueue terminations; unless it is stopped it leaves no due command, and has served every one that was due exactly once and left the others as they were. |
| RuntimeWorker.Worker.EnforceDeadlines | services/controller/src/worker.rs:192-207 | A safety pass and the loop after it: every instance that had to end gets a termination, no other does, and an unstopped loop has served each of them. |
| RuntimeWorker.ServingLowersBacklog | services/controller/src/worker.rs:521-553 | Each iteration lowers twice the due other commands plus the due terminations. |
| RuntimeWorker.RetryRests | services/controller/src/worker.rs:1745-1833 | A retried command is finished or waits for a strictly later time with attempts left, and at most one termination is new. |
| Journal.RedactionHidesTheFlag | services/controller/src/journal.rs:392-406 | Redaction replaces `deployment.flag_value` when it is present, adds nothing, keeps every other top-level member, and is idempotent. |
| Journal.ReplayWellFormed | services/controller/src/journal.rs:263-290 | What is replayed is keyed by itself, unacknowledged, redacted and discloses no flag. |
| Journal.ReplayIsTheLastWord | services/controller/src/journal.rs:258-290 | An operation is replayed exactly when the last record of its key is no acknowledgement, and then as that record, redacted. |
| Journal.CompactionPreservesReplay | services/controller/src/journal.rs:336-389 | Any list of exactly the replayed records replays to the same operations. |
| JournalFile.ReadableExactlyWhenUtf8 | services/controller/src/journal.rs:262-268 | The file can be read exactly when its bytes, all of them together, are UTF-8; one broken line makes the whole file unreadable. |
| JournalFile.CutIsPrefix | services/controller/src/journal.rs:315-334 | A write that is cut leaves so many more bytes of the record's text and newline behind what was there. |
| JournalFile.CutReadableExactly | services/controller/src/journal.rs:315-334 | What is left can be read if and only if it could be before and the cut splits no character: an unreadable file stays so under every append. |
| JournalFile.AppendIsAtomic | services/controller/src/journal.rs:315-334 | An append to an intact file that is cut after any number of bytes has happened or has not, unless the cut splits a character; then nothing is read any more. |
| JournalFile.AppendIsAtomicExactlyWhenAscii | services/controller/src/journal.rs:315-334 | Every cut leaves the old records or the new ones if and only if the record's text is ASCII. |
| JournalFile.SplitNameSpoilsTheJournal | services/controller/src/journal.rs:262-268 | A concrete input: the name of a host with an umlaut, cut between its two bytes; nothing is read, nor after any further append. |
| TextEncoding.AsciiExactlyWhenCutsAreTexts | services/controller/src/journal.rs:262-268 | Every beginning of a UTF-8 text is one exactly when it is all ASCII. |
| JournalFile.AppendIsReplayedExactlyWhenIntact | services/controller/src/journal.rs:292-334 | A completed append of any record that tells anything new, acknowledgements included, is replayed if and only if the file could be read and ended in a newline. |
| JournalFile.AppendBehindATornTail | services/controller/src/journal.rs:315-334 | Behind a torn tail an append cut short anywhere, or completed, leaves what was read before, what the complete lines alone replay to, or, when the cut splits a character, an unreadable file. |
| JournalFile.WritingKeepsClean | services/controller/src/journal.rs:315-334 | No interrupted write of a redacted record puts a raw flag on disk. |
| JournalFile.OrderedByTime | services/controller/src/journal.rs:342-347 | The order is by time, then instance, then command. |
| JournalFile.OneOrder | services/controller/src/journal.rs:336-349 | The order by time, instance and command determines the compacted file. |
| OperationJournal.OperationJournal.CurrentUnacknowledged | services/controller/src/journal.rs:258-290 | An error when the file is not UTF-8; otherwise the loop over the lines computes the replay, lines that do not parse skipped. |
| OperationJournal.OperationJournal.AppendLocked | services/controller/src/journal.rs:315-334 | Every content the file passes through is a prefix of writing the redacted record; what is then read follows. |
| OperationJournal.OperationJournal.Append | services/controller/src/journal.rs:292-313 | At every moment an intact file replays to what it replayed to before or to that with the record applied, or, only if some text was not ASCII, cannot be read; behind a torn tail, to what it did or to what its complete lines give; an unreadable file stays so; a failed compaction changes nothing. |
| OperationJournal.OperationJournal.CompactLocked | services/controller/src/journal.rs:336-389 | At every moment the same is read from the file; on success it is the ordered list of the operations, each once; an unreadable file is an error and is left alone. |
| OperationJournal.OperationJournal.SortRecords | services/controller/src/journal.rs:342-347 | The same records, ordered. |
| OperationJournal.OperationJournal.CleanupOverdueWithoutDatabase | services/controller/src/journal.rs:148-211 | On an unreadable file an error without effect; on an intact one every operation is still replayed at every moment, unless a record that is not ASCII was cut; a record is marked as cleaned up if and only if it was not yet, was overdue, had a host and got an answer that says absent or stale, and every other record stays as it was; the count is theirs. |
| OperationJournal.OperationJournal.ReconcileDatabaseAcknowledgements | services/controller/src/journal.rs:213-256 | On an unreadable file an error without effect; on an intact one an operation stays replayed if and only if its command and instance exist, the command is pending or claimed at the record's generation, and the instance is at it too or the command is claimed; the count is that of the operations forgotten, and no other is missing at any moment at which the file can be read, which only a cut of a record that is not ASCII ends. |
| StorageTheorems.StagingStaysGone | services/controller/src/storage.rs:621-711 | Once a `delete_upload` is completed the staging body is absent forever, whatever slow PUTs, late deletions, crashes, deferrals and other workers do. |
| StorageTheorems.CleanupIsFinalExactlyWithinGrace | services/controller/src/storage.rs:1145-1154 | That holds in all runs if and only if the store accepts a signature less than the grace period late. |
| StorageTheorems.LateUploadComesBack | services/controller/src/storage.rs:1145-1154 | With a skew of the whole grace period, a concrete run in which the body comes back after the completed clean-up. |
| StorageTheorems.DeletesAreFenced | services/controller/src/storage.rs:518-532 | Every DELETE, first or repeated, is sent by a worker that alone holds the row's lock and whose copy of the row, read and judged in earlier steps, is still the stored row: at the operation's revision and in a status that permits it. |
| StorageTheorems.HeldRowIsCurrent | services/controller/src/storage.rs:518-532 | In every reachable world the copy of a row that a worker decides from equals the stored row until its commit or rollback. |
| StorageTheorems.OnlyLabelledDeletes | services/controller/src/storage.rs:159-181 | No other step sends a DELETE. |
| StorageTheorems.ReadyKeepsItsBody | services/controller/src/storage.rs:791-840 | A ready object has its final body, and no DELETE of it was ever sent that could still be late. |
| StorageTheorems.DeletedLeavesNothing | services/controller/src/storage.rs:791-874 | `deleted` is final; from then on the final body never exists, nor, with a skew below the grace period, the staging body, also when workers crashed between their DELETE and their commit. |
| StorageTheorems.CommittedDeleteDeletes | services/controller/src/storage.rs:840-874 | The commit of a final delete, in any run: an object that was being deleted is deleted, at the next revision and with its expiry, its body gone; a failed one is unchanged; the operation is completed. |
| StorageTheorems.CompletedDeletesEnd | services/controller/src/storage.rs:840-874 | In every reachable world no completed delete is for an object still `deleting` at the operation's revision, and no operation is ahead of its object. |
| StorageTheorems.StagingIsCleanedFirst | services/controller/src/storage.rs:713-789 | The final DELETE of an object being deleted, first or repeated, is only sent once its staging clean-up was completed and, with a skew below the grace period, the staging body is absent. |
| StorageTheorems.OutcomeIsFinal | services/controller/src/storage.rs:892-940 | A finished operation keeps its outcome. |
| StorageSafety.RunKeeps | services/controller/src/storage.rs:430-516 | The storage invariant holds in every world of every run. |
| StorageSafety.StepKeeps | services/controller/src/storage.rs:430-516 | Every step of workers, API, clients, store and clock keeps it; statuses move only forward, together with the revision. |
| StorageSafety.PutLandsInTime | README.md:110-113 | A PUT begun by the grant's expiry, give or take the skew, and no longer than the maximum, ends before a clean-up may be final. |
| StorageSafety.GateMeansDone | services/controller/src/storage.rs:713-789 | For an object being deleted the gate passes only after a completed staging clean-up, because its own clean-up is never cancelled. |
| StorageSafety.RetireShape | services/api/src/routes/objects.rs:1906-2094 | Failing or deleting an object cancels exactly its open operations and leaves a pending clean-up of each body at the new revision. |
| StorageSafety.PromoteKeeps | services/api/src/routes/objects.rs:413-661 | Promotion under the row's lock, committed or not, keeps the invariant. |
| StorageSafety.ExpireKeeps | services/controller/src/storage.rs:534-619 | Failing an expired upload keeps the invariant. |
| StorageSafety.FinishStagingKeeps | services/controller/src/storage.rs:681-711 | Completing a staging clean-up keeps the invariant. |
| StorageSafety.FinishDeleteKeeps | services/controller/src/storage.rs:840-874 | Finishing a final delete keeps the invariant. |
| StorageSafety.DeleteLandsKeeps | services/controller/src/storage.rs:159-181 | A DELETE that takes effect late, or again, keeps the invariant. |
| StorageProgress.NeverStuck | services/controller/src/storage.rs:493-874 | In every world that keeps the invariant a working worker can take a step, other than to roll back, if and only if it is not waiting for a locked row, for its DELETE to take effect or for the staging body to be gone. |
| StorageProgress.AnyDeleteMayLand | services/controller/src/storage.rs:159-181 | In every world every DELETE ever sent may take effect, again too, and whoever waits for it may then go on. |
| StorageProgress.AnyUploadMayLand | README.md:110-113 | Whatever has become of the object, a PUT begun while its grant is accepted lands at any moment within its time; workers may crash and claims be recovered at any time. |
| StorageEffects.ClaimWrites | services/controller/src/storage.rs:469-491 | A claim writes the worker, the time and one more attempt; the task is a copy of the row. |
| StorageEffects.PostponeWrites | services/controller/src/storage.rs:755-789 | Due again at the given time with the attempt given back; nothing else changes. |
| StorageEffects.RetryWrites | services/controller/src/storage.rs:942-993 | Due again after the back-off, or given up at the time when the attempts are used up; nothing without the claim. |
| StorageEffects.FinishStagingWrites | services/controller/src/storage.rs:681-711 | Completes the clean-up and makes the pending deletes of its revision due at once, never later than they were. |
| StorageEffects.FinishDeleteWrites | services/controller/src/storage.rs:840-874 | `deleted` at the next revision with the expiry kept, for an object being deleted only; the operation is completed. |
| StorageEffects.ExpireWrites | services/controller/src/storage.rs:534-619 | Failed at the next revision, with a clean-up of either body queued unless one is open, the staging body's five seconds after the grant's expiry. |
| StorageEffects.UndoneColumns | services/controller/src/storage.rs:713-789 | When an unfinished clean-up may have come further: due, stale or tried again, and in a second at the earliest. |
| StorageEffects.UploadCreated | services/api/src/routes/objects.rs:345-411 | A pending upload at revision 1 with its reconciliation, due at the grant's expiry. |
| StorageEffects.UploadPromoted | services/api/src/routes/objects.rs:575-640 | Ready at the next revision, exactly its open reconciliations cancelled, a staging clean-up queued unless one is open. |
| StorageEffects.MissingExactly | services/controller/src/storage.rs:344-428 | Which clean-ups the safety pass wants: by status, unless one is open, done or given up recently; and when they are due. |
| StorageMaintenance.ObjectTables.ClaimOperation | services/controller/src/storage.rs:469-491 | Some due row is claimed for this worker with one more attempt, or there is none. |
| StorageMaintenance.ObjectTables.RecoverStaleClaims | services/controller/src/storage.rs:322-342 | Exactly the claims older than the cutoff become pending now. |
| StorageMaintenance.ObjectTables.FinishOperation | services/controller/src/storage.rs:892-940 | Succeeds exactly while the claim is held. |
| StorageMaintenance.ObjectTables.ReconcileUpload | services/controller/src/storage.rs:534-619 | A stale revision or status cancels, an unexpired grant reschedules, and an expired one fails the object at the next revision with both clean-ups queued; under its claim, with the object there, it never fails, and without the claim it changes nothing. |
| StorageMaintenance.ObjectTables.DeleteUploadBody | services/controller/src/storage.rs:621-711 | The staging body is deleted only at the operation's revision; the operation is completed only after the terminal time with the body absent, and deferred before it; a completed one makes the pending final deletes of its revision due; an error leaves the tables as they were. |
| StorageMaintenance.ObjectTables.StagingCleanupRetryAt | services/controller/src/storage.rs:713-789 | None exactly when the gate passes; otherwise the earliest time at which an unfinished clean-up of this revision may have come further. |
| StorageMaintenance.ObjectTables.DeleteObject | services/controller/src/storage.rs:791-874 | At the operation's revision behind the gate an object being deleted ends `deleted` at the next revision with its expiry unchanged, its body gone and the operation completed, and a failed one is unchanged; deferred before the gate, cancelled in any other status; an error leaves the tables as they were. |
| StorageMaintenance.ObjectTables.ScheduleRetry | services/controller/src/storage.rs:942-993 | Back-off, or failure when the attempts are used up; nothing without the claim. |
| StorageMaintenance.ObjectTables.ProcessAvailableOperations | services/controller/src/storage.rs:430-467 | At most 128 turns, no new claim left open, and nothing due left unless the limit or a stop ended the cycle. |
| CanonicalJson.RoundTrip | services/api/src/routes/create_idempotency.rs:143-178 | Whatever bytes follow, the stream of a value decodes to that value and leaves them, for all nestings with lengths below 2^64. |
| CanonicalJson.U64RoundTrip | services/api/src/routes/create_idempotency.rs:175-178 | Big-endian 64-bit lengths are eight bytes and decode to themselves. |
| CanonicalOrder.StreamDecodes | services/api/src/routes/create_idempotency.rs:143-178 | The stream decodes to the value's canonical form, which is the value up to the order of members. |
| CanonicalOrder.StreamsAgreeExactly | services/api/src/routes/create_idempotency.rs:143-178 | Two values have the same stream if and only if they are equal up to the order of object members at every depth (objects as in section 4 of RFC 8259). |
| CanonicalOrder.PrefixFree | services/api/src/routes/create_idempotency.rs:143-178 | No value's stream is a proper beginning of another's. |
| CanonicalOrder.StreamOfExample | services/api/src/routes/create_idempotency.rs:143-178 | The bytes of one value with all six tags, its members out of order: tags, big-endian lengths, sorted keys. |
| CanonicalOrder.CanonDecidesSameness | services/api/src/routes/create_idempotency.rs:161-170 | Sorting members by key decides equality up to order, defined independently of sorting. |
| RequestHasher.Hasher.HashValue | services/api/src/routes/create_idempotency.rs:143-173 | The mutable hasher is fed exactly the stream of the canonical form. |
| RequestHasher.Hasher.HashBytes | services/api/src/routes/create_idempotency.rs:175-178 | Length, then bytes. |
| RequestHasher.Hasher.HashFields | services/api/src/routes/create_idempotency.rs:161-170 | Collecting and sorting the keys and looking each value up feeds the members in canonical order. |
| RequestHasher.Hasher.SortKeys | services/api/src/routes/create_idempotency.rs:164-165 | The same keys, strictly ascending. |
| CreateRequests.CanonicalDigest | services/api/src/routes/create_idempotency.rs:136-141 | The domain prefix followed by the stream. |
| CreateRequests.DigestsAgreeExactly | services/api/src/routes/create_idempotency.rs:136-141 | With the prefix, digests still agree exactly for requests equal up to the order of members. |
| CreateRequests.CreateTable.LockAndReplay | services/api/src/routes/create_idempotency.rs:20-68 | Fresh without a row, replayed exactly when the row's request is the same up to the order of members, refused otherwise. |
| CreateRequests.CreateTable.Complete | services/api/src/routes/create_idempotency.rs:70-93 | One new row for the key, consistent with its request. |
| CreateRequests.CreateTable.ForgetResource | services/api/src/routes/create_idempotency.rs:96-110 | Exactly the rows of that operation and resource go. |
| CreateRequests.CreateTable.Create | services/api/src/routes/challenges.rs:672-690 | At most one resource comes of a key; repetitions get the first response, other data is refused, a failure leaves nothing. |
| CreateRequests.CreateTwice | services/api/src/routes/create_idempotency.rs:20-93 | A retried create, its members in any order, makes one resource and returns one response. |
| TicketLimiter.DecidesLikeRemembering | services/ssh-gateway/src/rate_limit.rs:71-125 | With refill times expiry at least the burst and a clock that does not go back, every request the client-count cap does not turn away is decided as by a limiter that never evicts. |
| TicketLimiter.TransparentExactlyWhenRefilled | services/ssh-gateway/src/rate_limit.rs:71-125 | That holds for all histories if and only if refill times expiry is at least the burst. |
| TicketLimiter.AcceptsAreBounded | services/ssh-gateway/src/rate_limit.rs:71-117 | In any span a client is accepted at most burst plus refill times the span, whatever the others do. |
| TicketDecisions.AcceptedExactly | services/ssh-gateway/src/rate_limit.rs:71-117 | A request that the cap does not turn away is accepted if and only if, in every span that ends with it, its client has had no more than a full bucket and the refill of the span: a lower bound as well as an upper one. |
| TicketDecisions.TurnedAwayExactly | services/ssh-gateway/src/rate_limit.rs:98-103 | A request is turned away if and only if at least the maximum of clients in the table were seen within the expiry time and the table has no bucket for its client, or only an expired one that a due clean-up drops. |
| TicketDecisions.TableKnowsAskers | services/ssh-gateway/src/rate_limit.rs:104-117 | The table holds only clients that have asked, with the time of their last request. |
| TicketDecisions.FewClientsAreNotTurnedAway | services/ssh-gateway/src/rate_limit.rs:98-103 | A history with no more clients than the maximum turns nobody away. |
| TicketDecisions.FewClientsGetTheirShare | services/ssh-gateway/src/rate_limit.rs:71-117 | Such a history is decided throughout as by a limiter that never evicts, and by conformance alone. |
| TicketDecisions.LevelIsLeastEntitlement | services/ssh-gateway/src/rate_limit.rs:71-97 | A client's level is the least of what it is entitled to since any earlier request. |
| TicketLimiter.TableIsBounded | services/ssh-gateway/src/rate_limit.rs:98-117 | The table never exceeds its maximum, whatever the policy and the clock. |
| ClientTicketLimiter.ClientTicketLimiter.AllowAt | services/ssh-gateway/src/rate_limit.rs:71-117 | The in-place update decides and writes as the functional limiter does; a poisoned limiter refuses; the table stays within its maximum. |
| ClientTicketLimiter.ClientTicketLimiter.RemoveExpired | services/ssh-gateway/src/rate_limit.rs:119-125 | Exactly the clients not seen for the expiry time are removed. |
| WindowLimiter.PruningIsInvisible | services/api/src/rate_limit.rs:21-47 | With a clock that does not go back, the pruned table answers every call as one that is never pruned. |
| WindowLimiter.AllowedExactly | services/api/src/rate_limit.rs:21-47 | A call under a fixed limit and interval is allowed if and only if fewer calls of its key than the limit were made since the window it falls in was opened; a window is opened by a call that no window of the key covers. |
| WindowLimiter.LessThanTwiceTheLimit | services/api/src/rate_limit.rs:21-47 | In any span shorter than its interval a key with fixed limit and interval is allowed less than twice its limit, whatever other keys and intervals are mixed in. |
| WindowLimiter.TwiceTheLimitLessOneIsReached | services/api/src/rate_limit.rs:21-47 | Twice the limit less one is reached, so no smaller bound holds. |
| RateLimiter.RateLimiter.Allow | services/api/src/rate_limit.rs:21-47 | The in-place update answers and writes as the functional limiter does, for the key of operation and subject. |
| RateLimiter.RateLimiter.Retain | services/api/src/rate_limit.rs:30 | Exactly the windows that are over are dropped. |
| Submissions.SolvedExactlyWhenAchieved | services/api/src/routes/challenges.rs:2094-2268 | After any history the challenge is solved exactly when the submissions jointly achieve its goal: every flag matched for "all", one for "any", one by every member for "team". |
| Submissions.PartialsNeverCover | services/api/src/routes/challenges.rs:2109-2183 | While an "all" challenge is unsolved its stored partials never match every flag between them, unless there is none. |
| Submissions.OrderDoesNotMatter | services/api/src/routes/challenges.rs:2109-2183 | Any two orders of the same submissions solve alike. |
| TeamProgress.SolvableExactlyWithoutStrays | services/api/src/routes/challenges.rs:2185-2241 | An unsolved team challenge can be solved by the members as they stand if and only if everybody whose partial is stored is one of them. |
| TeamProgress.FormerMemberBlocks | services/api/src/routes/challenges.rs:2185-2241 | While somebody with a stored partial is away nothing solves the challenge, until that user is back or the user's submissions are deleted. |
| TeamProgress.StraysAfter | services/api/src/routes/user_accounts.rs:691-709 | Only an administrator's change of the team of a member with a stored partial leaves such a partial behind; a return or an erasure ends it. |
| TeamProgress.NoStraysWithoutReassignment | services/api/src/routes/team_accounts.rs:737-755 | Joining, submitting and the ordinary removal, which deletes the member's submissions, never leave one behind. |
| TeamProgress.ReassignmentBlocks | services/api/src/routes/user_accounts.rs:691-709 | A team of two whose first submitter is put elsewhere: blocked, and solvable again after an erasure or a return. |
| Attempts.Account.CompareSubmission | services/api/src/routes/challenges.rs:2094-2268 | The loops compute the verdict of the specification, incorrect without flags; evidence of a shared flag only ever comes from the current submission. |
| Attempts.Account.AllMatched | services/api/src/routes/challenges.rs:2109-2155 | The two nested loops decide whether partials and submission cover every flag. |
| Attempts.Account.FirstMatch | services/api/src/routes/challenges.rs:2156-2177 | The loop decides whether some flag matches the submission. |
| Attempts.Account.Attempt | services/api/src/routes/challenges.rs:1563-1799 | An error without flags. Under lockout, an account with as many incorrect submissions as permitted is locked out and nothing is stored; under timeout one with as many within the timeout, and in either case one with too many recent incorrect ones, gets a rate-limited row; neither happens otherwise. Judged only while unsolved, with the verdict of the stored partials; at most one row and one solve; the attempt limit is kept. |
| Attempts.SolvedMeansAchieved | services/api/src/routes/challenges.rs:1677-1799 | An account's challenge counts as solved exactly when its judged submissions have achieved the goal, and at most once. |
| Attempts.LockoutHolds | services/api/src/routes/challenges.rs:1613-1655 | Under lockout an account never has more incorrect submissions than permitted. |
| Attempts.TimeoutHolds | services/api/src/routes/challenges.rs:1613-1655 | Under timeout it never has more within any span of the timeout's length. |
| DynamicScore.ValueStaysInRange | services/api/src/routes/challenges.rs:2503-2550 | The value stays between minimum and initial score. |
| DynamicScore.ValueNeverRises | services/api/src/routes/challenges.rs:2503-2550 | More solves never raise the value. |
| DynamicScore.ValueStartsAtInitial | services/api/src/routes/challenges.rs:2535-2542 | The first solver still gets the initial score. |
| DynamicScore.LogarithmicMinimum | services/api/src/routes/challenges.rs:2535-2542 | With minimum below initial, the logarithmic value is the minimum exactly when the solve count exceeds decay. |
| DynamicScore.LinearMinimum | services/api/src/routes/challenges.rs:2535-2542 | The linear value is the minimum exactly when the solves after the first have used up the drop. |
| DynamicScore.AdmissionIsSound | services/api/src/routes/challenges.rs:593-648 | Whatever creation admits has a sound curve that starts at the stored value, or a fixed value that is not negative. |
| DynamicScore.SoundCurvesAreAdmitted | services/api/src/routes/challenges.rs:593-648 | Every sound curve is admitted, with the initial score given as `initial` or as `value`. |
| DynamicScore.AdmittedExactly | services/api/src/routes/challenges.rs:593-648 | Exactly which combinations creation admits, and each field of the curve that comes of them. |
| DynamicScore.AmendedExactly | services/api/src/routes/challenges.rs:1215-1285 | Exactly which patches of a dynamic challenge are admitted: each field that is present is the new curve's field and none of them may be null, each one absent stays, the result is sound, and a value that is given is the initial score. |
| DynamicScore.FixedAmendedExactly | services/api/src/routes/challenges.rs:1215-1285 | The same for a challenge with a fixed value: only a value that is not negative. |
| DynamicScore.LinearExactly | services/api/src/routes/challenges.rs:2535-2542 | The linear value in whole numbers: decay for each solve after the first, down to the minimum. |
| DynamicScore.LogarithmicExactly | services/api/src/routes/challenges.rs:2535-2542 | The logarithmic value in whole numbers: the least one not below the parabola up to `decay` solves, and then the minimum. |
| DynamicScore.AmendmentIsSound | services/api/src/routes/challenges.rs:1215-1285 | Whatever an update admits has a sound curve; a patch that changes nothing is admitted. |
| DynamicScore.Challenge.Recalculate | services/api/src/routes/challenges.rs:2503-2550 | The stored value is put on the curve for the solve count and stays within its range. |
| DynamicScore.Challenge.Update | services/api/src/routes/challenges.rs:1215-1366 | A refused patch changes nothing; an admitted one leaves the value on the new curve. |
| IdentityKeys.IdentityStore.Generate | services/ssh-gateway/src/identity.rs:251-319 | Failing or crashing anywhere it un-retires no key and returns no retired one; without a marker it returns the installed key as long as that can be inspected and its public file matches or can be rewritten; what it returns is installed, with its own public file and no marker; it fails only over a failed file operation or tool. |
| IdentityKeys.IdentityStore.AttemptRepeatedly | services/ssh-gateway/src/identity.rs:251-319 | If the marker is durable wherever key k may be installed, no later success of any number of attempts, each crashing in any state with or without the power, returns k. |
| IdentityKeys.IdentityStore.WriteRotationMarker | services/ssh-gateway/src/identity.rs:685-697 | Once it has succeeded every installed key is retired. |
| IdentityKeys.IdentityStore.ValidateExisting | services/ssh-gateway/src/identity.rs:321-356 | Succeeds exactly when the key can be inspected and its public file matches or can be repaired; afterwards the public file is the derived one. |
| IdentityKeys.IdentityStore.MakePending | services/ssh-gateway/src/identity.rs:262-309 | Removing the old files and generating un-retires nothing. |
| IdentityKeys.IdentityStore.Install | services/ssh-gateway/src/identity.rs:307-319 | The marker is removed only once the new key is durably the only installed one. |
| IdentityKeys.IdentityStore.Delete | services/ssh-gateway/src/identity.rs:383-408 | In every visible state of a deletion a retired key that is still there is still marked; no power failure in any of its states un-retires the key if and only if the key was durably gone before the call or the marker is not reached, which a completed deletion of anything always does. |
| IdentityKeys.RetiredSurvivesPowerLoss | services/ssh-gateway/src/identity.rs:685-697 | No power failure un-retires a key. |
| IdentityKeys.DeletionMayUnretire | services/ssh-gateway/src/identity.rs:383-408 | The state in which a deletion has removed the marker has a survivor with the retired key and without its marker, when that key might still be on disk. |
| IdentityKeys.UnmarkingIsHarmlessExactlyWithoutTheKey | services/ssh-gateway/src/identity.rs:383-408 | Over all states of a deletion and all power failures: a retired key stays retired exactly when it was durably gone before, or the marker stays. |

## Left out

- RuntimeWorker.Worker.ProcessAvailableCommands: the clock stands still during one call, no API step interferes and there is one live claimant; interleavings are the transition system's subject.
- RuntimeWorker.Worker.EnforceDeadlines: without the inspections that the source enqueues between the passes and the loop, and, like the loop, at one moment without interleaving.
- RuntimeWorker.Worker.RemoteExecute: once a record was lost behind a torn line or in an unreadable file nothing is claimed about later intents.
- OperationJournal.OperationJournal.Append: a record appended behind a torn tail or to an unreadable file is lost, so before-or-after holds only for an intact file and ASCII text; the other files have their own clauses.
- RuntimeTables.Tables.EnqueueSafetyTerminations: both passes are one uninterrupted call at one moment, where the source commits instance by instance; the transition system enqueues one instance per step.
- RuntimeSafety.DecideKeeps: a start's clock and gate are read in one step, where the source reads the gate after the clock.
- OperationJournal.OperationJournal.CleanupOverdueWithoutDatabase: behind a torn tail the first record written is lost; only unreadable and intact files have clauses.
- OperationJournal.OperationJournal.ReconcileDatabaseAcknowledgements: likewise nothing is stated for a file with a torn tail.
- RuntimeTheorems.IntentPrecedesTheCall: journals are sequences of whole records in the transition system; torn tails and split characters are treated in `JournalFile`.
- StorageMaintenance.ObjectTables.DeleteUploadBody: one worker without interleaving; the interleaved steps are in `StorageProtocol`.
- StorageMaintenance.ObjectTables.DeleteObject: likewise one worker without interleaving.
- Attempts.Account.Attempt: the recent incorrect submissions at other challenges are a parameter, since the advisory lock covers one account and challenge only.
- IdentityKeys.IdentityStore.Delete: removes the five known entries; unexpected entries in the directory are not modelled.
- Columns that steer nothing: endpoints, container ids, failure codes and messages, events, notifications, activation and stop times, `observed_generation`.
- The host named in an acknowledged journal record, which replay discards, and the revisions copied into every record.
- PostgreSQL isolation anomalies, connection failures inside a transaction, and the singleton lease itself: any number of controllers may act at once.
- `next_wake_delay`, status reporting, start-up and shutdown, and the batch limit and order of `enqueue_active_inspections`.
- The order in which due commands, operations and records are taken: the models allow every order.
- Bucket mismatches and unreadable objects are plain failures of an operation; event rows are omitted.
- The digest function, advisory lock keys and header syntax of idempotent creation.
- `normalize_client_ip`, lock poisoning other than that it refuses everything, and durations beyond what numbers of seconds express.
- Rounding of `f64` in scores and token counts: tiny values may round differently.
- Access checks, prerequisites, previews and response texts of `attempt`; generated flags whose match depends on the user.
- Recomputation of a dynamic value after an administrator edits submissions: the code does not do it, and nothing is claimed about it.
- TeamProgress.FormerMemberBlocks: an administrator's edit of a single submission (services/api/src/routes/administration.rs:2033-2125) is no event; marking one correct solves the challenge while a stray is away, and deleting one may end a stray.
- Permissions, symbolic links, file locks and the key comment of SSH identities, `validate_identity_binding` and the API's identity operations.
- HTTP routing, views, sanitizing, CRUD administration and single-value validators, which would only add easy members.
