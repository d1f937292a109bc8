# Trail permit dispatch, verified

A Dafny model of the trail permit platform: parties reserve seats on the permit
window of a trail day, move through their lifecycle, pay a fee that a background
job settles, and may have incidents that escalate. Everything runs concurrently
over one SQLite database. Services read rows outside any transaction, decide on
what they read, and then commit one transaction whose guards (version, state,
quota, unique index) decide whether the decision still stands. Workers lease jobs,
crash, lose their leases and report late.

`dafny verify dfyconfig.toml` checks the project.

## How the model is built

- `Tables.dfy`, `Domain.dfy`, `Errors.dfy`: the rows, the state machines and caps,
  the error codes.
- `Repositories.dfy`, `Transactions.dfy`: one specification function per SQL
  statement (guards, columns, constraints, the error reported) and per transaction.
- `Runs.dfy`: the small-step system. An action carries the rows its client read and
  may be taken only when each of them was in the database at some earlier point of
  the run; any number of clients and workers interleave. Write transactions are
  serial in the program, so one transaction is one step. A ghost history per job
  counts retries, reclaims and committed hand-offs.
- `Invariants.dfy`, `Preservation.dfy`, `QueuePreservation.dfy`, `Safety.dfy`: the
  invariants and the proof that every reachable state satisfies them.
- `Theorems.dfy`, `ExactlyOnce.dfy`: the guarantees, each for every run.
- `Store.dfy`, `Dispatch.dfy`, `Incidents.dfy`, `Worker.dfy`, `Settlements.dfy`,
  `Catalog.dfy`, `Idempotency.dfy`, `Sweep.dfy`: the repositories and services themselves, as classes that update
  tables in place. Every service method is proved to be an allowed action at the end
  of the history. Between two accesses it calls `Store.Pause`, whose contract allows
  any actions of others. The body of `Interfere` is the case that nobody moved; what
  callers may rely on is only its contract, and `OthersKeepKnowledge` proves what
  every longer interference leaves a client with. The ghost constant `alone` says
  that no other client is active: clauses under it state exactly when a call
  succeeds, and as no code can read it, they bind the same body that must cope with
  interference.
- `Backoff.dfy`, `Fee.dfy`, `Overdue.dfy`, `Bits.dfy`, `Credentials.dfy`,
  `TxManager.dfy`, `Race.dfy`: algorithms that stand on their own.
- `Witnesses.dfy`: concrete runs that show what the platform does not promise.

In the table, "undisturbed" means under `alone`.

## Where code and comments of the repository differ

The model follows the code.

- An expired idempotency record is said to count as unused
  (internal/idempotency/manager.go:44-46). The lookup does miss, but saving the new
  response still violates the unique index until the record is purged, so the request
  fails with a conflict: `Witnesses.ExpiredKeysBlock`. `Dispatch.PermitsCommitExactly`
  says exactly when a request commits.
- Any error is said to roll the whole unit of work back
  (internal/storage/sqlite/db.go:161-163). An inner error that is handled before it
  reaches the root does not: `UnitOfWork.HandledInnerErrorsKeepWrites`. The comment
  holds of exactly the program texts that handle no error inside:
  `UnitOfWork.ErrorsAlwaysRollBackIffNoneIsHandled`.
- A job's outcome is recorded by whoever reports first while it is running, not only
  by the holder of its lease (internal/repository/sqliterepo/platform.go:237-276):
  `Witnesses.LateReportsAreRecorded`, exactly when in `ExactlyOnce.LateReports`. Expired
  leases can take attempts beyond the limit: `Witnesses.AttemptsCanExceedTheLimit`,
  exactly when in `ExactlyOnce.LeasesBeyondTheLimit`.
- The escalation handler performs one hand-off (internal/worker/handlers.go:140-141) per
  run of a job, not per job. Two leases of one job that are both working each commit
  one, without the delay in between: `Witnesses.OneJobHandsOffTwice`; at most one per
  lease: `ExactlyOnce.HandOffsNeedLeases`.
- Party and critical incident are said to stay consistent
  (internal/service/incident/service.go:106-107). They are two transactions; what holds
  is the statement about a call that returns success: `IncidentService.Open`. The abort
  can miss a party that moved (`Witnesses.CriticalIncidentBesideAMovingParty`), and only
  such a party (`Theorems.StopsFailOnlyForMovedParties`).

## Main results

- Every reachable state satisfies every invariant, for any interleaving and any
  staleness: `Safety.ReachableStatesAreSafe`.
- Seats: `Theorems.SeatsAreConserved`, `SeatsAreTakenAndReturnedOnce`,
  `ClosedWindowsOnlyDrain`, `ClosingFailsOnlyOnConflict`.
- Parties: `Theorems.StateChangesAreAbaFree`, `VersionCountsTransitions`, `TablesAgree`,
  `PermitHoldersAreComplete`, `Dispatch.PermitsCommitExactly`.
- Jobs: `ExactlyOnce.JobAccounting`, `NextLeaseWaited`, `LateReports`,
  `ValidLeasesSurvive`, `Worker.Runner.Poll`.
- Effects: `ExactlyOnce.ChargedAtMostOnce`, `DoneSettleJobsAreFinal`,
  `EscalationsAreCounted`, `HandOffsNeedLeases`, `NoChainIsLost`,
  `OneReservationPerKey`, `ReplaysAreTruthful`.
- Interference: `Storage.OthersKeepKnowledge`, `Dispatch.DispatchService.RequestPermit`,
  `IncidentHandling.IncidentService.Open`, `Sweep.Sweeper.SweepOverdueCheckpoints`.
- Algorithms: `Race.RacesEndAlike`, `Overdue.SearchIsMinimal`, `Credentials.DeriveKey`,
  `Fee.MoreSeatsCostMore`, `UnitOfWork.ErrorsAlwaysRollBackIffNoneIsHandled`.

The last rows of the table tie each statement of the repositories to its
specification function.

## Model

| member | source | states |
|---|---|---|
| Safety.ReachableStatesAreSafe | internal/service/dispatch/service.go:360-470 | For every run of any number of clients and workers, with any staleness of what they read: every table invariant holds at the end, and every earlier database is an earlier version of the last one (rows, versions, final states and rosters never go back) |
| Safety.StepKeeps | internal/storage/sqlite/db.go:27-33 | One committed or refused transaction of any of the 24 kinds keeps all invariants, given only that its client's readings are earlier versions of the rows |
| Safety.ReadsAreStale | internal/service/dispatch/service.go:489-530 | A row read at any earlier point of the run is an earlier version of the row there now: same identity, and equal if the version is equal |
| Storage.OthersKeepKnowledge | internal/worker/runner.go:200-215 | Whatever others did in between, a client's readings remain readings of the past, and a worker's leases are in the phase it left them in although others may have claimed, reclaimed or finished the same jobs |
| Storage.ClosedStays | internal/repository/sqliterepo/platform.go:209-232 | A lease that is over stays over, whatever others do: its number is never issued again |
| Theorems.SeatsAreConserved | internal/repository/sqliterepo/permit.go:110-164 | In every reachable state a window's reserved counter is the sum of the sizes of the parties that hold a permit on it, and lies between 0 and the total |
| Theorems.ClosingFailsOnlyOnConflict | internal/service/dispatch/progress.go:127-252 | A completion, cancellation or abort goes through exactly when the party row is still the one read; otherwise it is a version conflict, so the release mismatch error cannot occur |
| Theorems.StopsFailOnlyForMovedParties | internal/service/dispatch/progress.go:212-243 | After an abort or cancellation was tried the party goes on iff its row had moved since it was read, to a state that is not terminal |
| Theorems.ClosedWindowsOnlyDrain | internal/repository/sqliterepo/permit.go:167-181 | After a window was closed it stays closed and its reserved counter never rises again, in any run |
| Witnesses.CriticalIncidentBesideAMovingParty | internal/service/incident/service.go:133-150 | A run in which a critical incident is stored, the party departs before the abort commits, and goes on beside the unresolved incident |
| Theorems.StateChangesAreAbaFree | internal/repository/sqliterepo/party.go:134-167 | The guarded update fires exactly when the whole row read at any earlier point is still the current row |
| Theorems.PartyStep | internal/domain/party.go:31-39 | A step leaves a party alone or takes exactly this party along one of the nine edges of the state machine, listed one by one, and raises its version by one |
| Theorems.VersionCountsTransitions | internal/domain/party.go:31-39 | A party's version is one plus the number of its transitions in the run and never exceeds 5 |
| Theorems.TablesAgree | internal/service/dispatch/service.go:416-465 | Per party state, in every reachable state: which of permit, settlement (seats and state), notify job and settle job exist, and how many |
| Theorems.PermitHoldersAreComplete | internal/domain/party.go:238-247 | In every run a roster never exceeds the size of its party, and a party with a window has exactly as many members as its size, each with a signed waiver, although readiness and draft state are read outside the transactions |
| Theorems.PermitsStayPut | internal/service/dispatch/service.go:416-432 | A permit is on a window of the party's own trail and day and is never exchanged |
| Theorems.SeatsAreTakenAndReturnedOnce | internal/service/dispatch/progress.go:247-252 | Over a whole run a party takes seats once if it ever got a permit and else never, and returns them once, exactly when it no longer holds them |
| ExactlyOnce.ChargedAtMostOnce | internal/service/settlement/service.go:74-120 | However often the job runs, loses its lease or reports late, a fee is written as settled at most once over the run, and only for a completed party |
| ExactlyOnce.FeesAreFinal | internal/repository/sqliterepo/incident.go:280-296 | Amounts never change, and a settled or waived fee never changes again in any column |
| ExactlyOnce.DoneSettleJobsAreFinal | internal/worker/handlers.go:128-138 | A settle job that is done implies that its fee is settled or waived |
| ExactlyOnce.JobAccounting | internal/repository/sqliterepo/platform.go:181-291 | attempts + (1 if queued) = 1 + retries + reclaims; retries stay below the attempt limit; so attempts exceed the limit by at most the reclaims |
| ExactlyOnce.AttemptsAreLeases | internal/repository/sqliterepo/platform.go:209-219 | In every run a job's attempts are exactly the leases of it that went through |
| ExactlyOnce.LeasesBeyondTheLimit | internal/repository/sqliterepo/platform.go:209-219 | A lease takes a job beyond its limit iff the row leased had used it up, and only after a lease of the job expired |
| ExactlyOnce.LeasesAreNew | internal/repository/sqliterepo/platform.go:209-232 | A won lease carries a number no worker holds and no retry has used, larger than that of every worker still holding one of the job |
| ExactlyOnce.FinishedJobsStay | internal/repository/sqliterepo/platform.go:237-276 | Done and parked jobs never change again, whatever stale workers report |
| ExactlyOnce.CrashedJobsComeBack | internal/repository/sqliterepo/platform.go:280-291 | A job neither done nor parked is in the queue after a reclaim that finds no lease on it valid |
| ExactlyOnce.LeasesEndOnlyWhenOver | internal/repository/sqliterepo/platform.go:237-291 | In every run a running job changes only by a report on it or by a reclaim at or after the time its lease ends, and such a reclaim always changes it |
| ExactlyOnce.ValidLeasesSurvive | internal/repository/sqliterepo/platform.go:280-291 | Whatever else happens in a run, a job whose lease is still valid at every reclaim keeps its row, holder and lease until somebody reports on it |
| ExactlyOnce.RetriesWait | internal/worker/runner.go:254-284 | In every continuation of a run the retried job stays as it is until it is leased again, and a lease goes through exactly from the stored second of now + min(base*2^(k-1), max) on: never a full second early, and not early at all when that instant is a whole second |
| ExactlyOnce.NextLeaseWaited | internal/worker/runner.go:254-284 | In every run in which a retried job was leased again, by any worker, the first such lease came no earlier than that second |
| ExactlyOnce.OnlyLeasesCount | internal/repository/sqliterepo/platform.go:181-291 | No action but a lease that goes through raises a job's attempts or sets it running |
| ExactlyOnce.RunningJobsNameTheirHolder | internal/repository/sqliterepo/platform.go:209-232 | In every run a running job is under its latest lease, and locked_by names the worker that won it |
| ExactlyOnce.LateReports | internal/repository/sqliterepo/platform.go:237-276 | In every run a report is recorded iff the job is running, and it ends another lease than its own iff moreover the attempts have passed its lease number |
| Witnesses.AttemptsCanExceedTheLimit | internal/repository/sqliterepo/platform.go:209-219 | A run in which a job with limit 1 is running its second attempt after one lease expired |
| Witnesses.LateReportsAreRecorded | internal/repository/sqliterepo/platform.go:237-251 | A run in which the worker that lost its lease marks the job done while the row names another worker |
| ExactlyOnce.EscalationsAreCounted | internal/service/incident/service.go:212-256 | A minor incident is escalated at most once, a major one three times, a critical one four times; exactly min(count + 1, that cap) escalation jobs were ever queued; open means count 0 and escalated means more |
| ExactlyOnce.OneHandOffPerLease | internal/worker/handlers.go:142-159 | In every run a lease commits at most one hand-off, however long ago it was lost |
| ExactlyOnce.HandOffsNeedLeases | internal/worker/handlers.go:142-159 | A job hands off at most once per lease of it, so more than once only after a retry or an expired lease |
| ExactlyOnce.HandOffsCommitExactly | internal/service/incident/service.go:229-247 | A hand-off decided on a row read at any earlier point commits iff the incident is still that row and, below the cap of 1, 3 or 4, the next job can be queued, whether or not its job has handed off before |
| Witnesses.OneJobHandsOffTwice | internal/worker/handlers.go:142-159 | A run in which two leases of one escalation job hand off at the same instant and the count rises by two |
| ExactlyOnce.NoChainIsLost | internal/worker/handlers.go:142-159 | An incident that may still be escalated has an escalation job that is queued or running, unless one of the chain's jobs was parked |
| ExactlyOnce.OneUnresolvedIncidentPerTopic | migrations/0002_operations.sql:79-80 | Two unresolved incidents of one party, kind and checkpoint are the same row |
| ExactlyOnce.StoppedPartiesStayStopped | internal/service/dispatch/progress.go:212-243 | A party once seen in a terminal state keeps its row for ever, holds no seats, and has returned the seats of its permit exactly once |
| ExactlyOnce.OneReservationPerKey | internal/idempotency/manager.go:72-98 | Requests committed under a key equal the purges that removed its expired record plus the record stored now: at most one between purges, duplicates that race included |
| ExactlyOnce.ReplaysAreTruthful | internal/idempotency/manager.go:47-67 | A replayed response belongs to the caller's party of that size, which obtained that very permit with a complete roster |
| Repositories.ReserveMeetsDomainCheck | internal/repository/sqliterepo/permit.go:110-142 | The conditional update fires iff the version matches and the domain check accepts; each error code names the true cause; the final fallback conflict is unreachable |
| Repositories.FindWindow | internal/repository/sqliterepo/permit.go:61-65 | Finds a window of exactly that trail and day, and none only when there is none |
| Repositories.FindUnresolved | internal/repository/sqliterepo/incident.go:132-138 | Finds an unresolved incident of exactly that topic, and none only when there is none |
| Preservation.VersionGuardIsExact | internal/repository/sqliterepo/party.go:134-167 | Against a stale reading, state and version match iff the rows are equal |
| Preservation.ReleaseSucceeds | internal/service/dispatch/progress.go:247-252 | Releasing the seats of a party as its row stands always succeeds and lowers exactly its own window by exactly its share |
| Preservation.PermitKeeps | internal/service/dispatch/service.go:416-465 | The permit transaction, decided on stale party, roster and window rows, keeps every invariant |
| Preservation.CompleteKeeps | internal/service/dispatch/progress.go:127-146 | The completion transaction keeps every invariant: seats go back, one settle job appears |
| Preservation.StopKeeps | internal/service/dispatch/progress.go:180-273 | Cancelling and aborting keep every invariant: seats go back, a pending fee is waived |
| Preservation.RegisteredMemberKeeps | internal/service/dispatch/service.go:325-355 | Registering on a stale draft row keeps rosters within size; a commit implies that the party still has no permit |
| Preservation.ChangedFeeKeeps | internal/repository/sqliterepo/incident.go:280-296 | A fee update that goes through was decided on the current row, and keeps every invariant when the new state fits the party |
| Preservation.EscalateKeeps | internal/service/incident/service.go:229-247 | A hand-off that goes through was decided on the current row, and keeps counts, job numbers and topics |
| Preservation.OpenedIncidentKeeps | internal/service/incident/service.go:177-208 | Creating an incident with its first job keeps every invariant |
| QueuePreservation.EscalationKeeps | internal/worker/handlers.go:142-159 | A hand-off by any worker, alone or repeated, credits at most one job per escalation and keeps the whole queue invariant |
| QueuePreservation.ReturnKeeps | internal/worker/handlers.go:128-159 | A handler that reports success without writing was right: the fee is final or the chain has ended |
| QueuePreservation.RetriedKeeps | internal/worker/runner.go:218-284 | A retry is granted at most once per lease number and only below the limit, even when the worker's reading of attempts is already another lease's |
| Backoff.ComputeBackoff | internal/domain/operations.go:314-329 | The doubling loop returns min(base*2^(attempts-1), max) for any base >= 0, never more than max, and no intermediate value exceeds 2*max when 0 <= base <= max |
| Backoff.DelaysDouble | internal/domain/operations.go:314-329 | The first wait is the base, and each further attempt doubles it until the cap is reached |
| Dispatch.DispatchService.PermitTransaction | internal/service/dispatch/service.go:416-465 | Five row writes in order, all or nothing; the stored view shows the rows as committed |
| Dispatch.DispatchService.CompleteTransaction | internal/service/dispatch/progress.go:127-146 | State change, seat release and settle job, all or nothing |
| Dispatch.DispatchService.StopTransaction | internal/service/dispatch/progress.go:180-243 | State change, seat release and waiver, all or nothing |
| Dispatch.DispatchService.ReleasePermit | internal/service/dispatch/progress.go:247-252 | Releases the seats of a permit holder and nothing otherwise |
| Dispatch.DispatchService.WaiveSettlement | internal/service/dispatch/progress.go:255-273 | Waives a pending fee and leaves any other alone |
| Dispatch.DispatchService.Lookup | internal/idempotency/manager.go:47-67 | Miss, mismatch or replay as the stored record decides |
| Dispatch.DispatchService.Remember | internal/idempotency/manager.go:72-93 | Stores the response; a blank key stores nothing |
| Dispatch.DispatchService.EnsureWindow | internal/repository/sqliterepo/permit.go:31-52 | Returns a window of the day under any interleaving, losing the race to create it included; undisturbed, inserts exactly one row iff there was none |
| Dispatch.DispatchService.RequestPermit | internal/service/dispatch/service.go:360-470 | Under any interleaving success means that the caller's own party holds the permit the response shows, and that its roster has exactly as many members as its size, each with a signed waiver. Undisturbed: a record of the key without expiry or before it is replayed for the same party and size, a conflict for others, and changes nothing; otherwise the answer is the one of PermitAnswer, state_invalid for a party that is no draft, short, unsigned or late, the other codes in order, and success iff none applies; success changes exactly the rows Granted lists, column by column |
| Dispatch.DispatchService.Reserve | internal/service/dispatch/service.go:384-470 | The part after the idempotency check: success leaves a full roster of signed waivers and books settlement and record; undisturbed, the answer is the one PermitAnswer gives in the columns of the tables and the new state the one Granted lists |
| Dispatch.PermitsCommitExactly | internal/service/dispatch/service.go:416-465 | For every run and rows read at any earlier points: the request commits iff window and party are still the rows read, fees and limit are acceptable and the key is free; version_conflict, invalid_argument and conflict name the cause |
| Dispatch.StalePermit | internal/service/dispatch/service.go:416-465 | The same for one database that satisfies the invariants |
| Witnesses.ExpiredKeysBlock | internal/idempotency/manager.go:47-93 | A reachable state in which the lookup misses an expired record and the request is refused because of it; after a purge the same request commits |
| Dispatch.DispatchService.CreateParty | internal/service/dispatch/service.go:219-258 | One row appended with the given trail, leader, day, start and size, as a draft of version 1, its leader being the one member with a waiver, or nothing at all iff the size is not positive |
| Dispatch.DispatchService.RegisterOneMember | internal/service/dispatch/service.go:325-355 | Accepted iff well formed, not on the roster yet and below the size of the party; then exactly this member is added with its waiver; invalid_argument for its text and conflict otherwise, changing nothing |
| Dispatch.DispatchService.RegisterMembers | internal/service/dispatch/service.go:281-323 | One outcome per item, in order, with counters that add up; under any interleaving an accepted item is in the roster on return, with its waiver. Undisturbed: item i is accepted iff it is well formed, its reference is neither on the roster nor that of an earlier accepted item, and roster plus items accepted before it is below the size; else invalid_argument for its text and conflict otherwise; the roster grows by exactly the accepted items |
| Dispatch.ItemsAreAnsweredInOrder | internal/service/dispatch/service.go:281-355 | For every batch: the answers are those of Answers, item by item, and the members afterwards are those at the start and the accepted references, no others |
| Dispatch.AcceptedCounts | internal/service/dispatch/service.go:295-310 | The accepted counter is the number of items accepted |
| Dispatch.AcceptedItemsAreMembers | internal/service/dispatch/service.go:281-355 | Accepted items are exactly the members added, each with its waiver, never beyond the size; other rosters are untouched |
| Dispatch.DispatchService.Advance | internal/service/dispatch/service.go:489-530 | Success means the next state, and with the departure its time is stored; undisturbed, it succeeds iff the party is in the expected state, and then changes its state, version and departure time only |
| Dispatch.DispatchService.ReportCheckpoint | internal/service/dispatch/progress.go:29-92 | Success means that exactly this report is stored: head count, time in whole seconds, and on time up to start plus 60 seconds per cutoff minute, late for 60 seconds per minute of grace after that, missed beyond; undisturbed, the answer is that of ReportAnswer, each error by its cause, and success iff the party is on the trail and the node above all reported ones |
| Dispatch.DispatchService.CompleteParty | internal/service/dispatch/progress.go:96-155 | Success means completed at this time with every mandatory node reported and a settle job due at once; undisturbed, it succeeds iff the leader's party is on the trail with all of them reported, and then changes exactly the party, its window's seats and the queue |
| Dispatch.DispatchService.CancelParty | internal/service/dispatch/progress.go:159-207 | Success means cancelled at this time; undisturbed, it succeeds iff the party is a draft, reserved or confirmed and the caller is its leader or a ranger, and then returns its seats, waives a pending fee and changes nothing else |
| Dispatch.DispatchService.AbortParty | internal/service/dispatch/progress.go:212-243 | Success means completed, cancelled or aborted, and such a party is left untouched; undisturbed, it succeeds iff the party is one of these, confirmed or on the trail, and then returns the seats, waives a pending fee and changes nothing else |
| IncidentHandling.IncidentService.Create | internal/service/incident/service.go:177-208 | Incident and first escalation job together, due after 1800, 600 or 120 seconds by severity, and nothing else changes; a conflict exactly when an open or escalated incident has the same party, kind and checkpoint |
| IncidentHandling.IncidentService.Open | internal/service/incident/service.go:108-151 | Under any interleaving success means that the reported incident is stored under its topic and severity, and a critical one leaves its party completed, cancelled or aborted; undisturbed, it succeeds iff the party is confirmed or on the trail and no open or escalated incident has the topic, and a critical one then aborts the party with the effects AbortParty states |
| IncidentHandling.IncidentService.OpenOverdue | internal/service/incident/service.go:156-172 | Success and conflict both mean that an open or escalated checkpoint_overdue incident is on the node now; undisturbed, one major incident with its first job is added iff there was none |
| IncidentHandling.IncidentService.Resolve | internal/service/incident/service.go:259-298 | Success means resolved with this text and time; undisturbed, it succeeds iff the incident is open or escalated, and changes these columns and the version only |
| IncidentHandling.IncidentService.Archive | internal/service/incident/service.go:301-336 | Success means closed; undisturbed, it succeeds iff the incident is resolved, and changes state and version only |
| Worker.Runner.constructor | internal/worker/runner.go:38-61 | Unset options get exactly the source's defaults, and a delay cap below the base becomes twenty times the base |
| Dispatch.DispatchService.constructor | internal/service/dispatch/service.go:82-110 | Unset options get exactly the source's defaults |
| Worker.Runner.Reclaim | internal/worker/runner.go:205-207 | One step of the system: exactly the running jobs whose lease time is not after the whole second of now are queued again, without holder and lease and with the same attempts and run time, all other rows stay, and the number of these jobs is returned |
| Worker.Runner.LeaseOne | internal/repository/sqliterepo/platform.go:209-221 | Leases iff the job is queued and its run time has come; then it is running, one attempt further, under this worker for the length of a lease; the lease is new |
| Worker.Runner.ReadBackOne | internal/repository/sqliterepo/platform.go:225-229 | Reads the leased job in a statement of its own |
| Worker.Runner.ClaimDue | internal/repository/sqliterepo/platform.go:181-234 | Under any interleaving the claims are of jobs that were queued with a run time not after now, in an order in which run times never fall, each lease distinct, won during the call and held when it returns; undisturbed, a due job is left out only if a full batch of earlier ones was claimed, each claimed row is under its new lease and every other row as before |
| Worker.DueJobsAreFair | internal/repository/sqliterepo/platform.go:188-206 | Candidates are due jobs, each once, by run time and then identifier, and one is passed over only for earlier ones that fill the limit |
| Worker.CandidatesAreDue | internal/repository/sqliterepo/platform.go:188-206 | The same in columns: queued jobs whose run time has come, run times never falling and identifiers rising within one run time |
| Worker.Runner.HandleSettleParty | internal/service/settlement/service.go:74-120 | Reporting success implies that the fee is settled or waived; undisturbed and without faults, it finishes iff the party is completed and has a fee: a pending or parked fee is then settled with this reference and time, its amounts kept and its version one higher, a settled or waived one is unchanged, and otherwise nothing changes and the failure is state_invalid or not_found |
| Worker.Runner.DecideOnFee | internal/service/settlement/service.go:79-113 | The same on the two rows read: on rows that are still current it settles, leaves a final fee alone or refuses by cause; reporting success always means that the fee is final now |
| Worker.Runner.CommitCharge | internal/service/settlement/service.go:97-113 | The version-guarded charge: success, or a fault after the commit, leaves the fee settled with this reference and time |
| Worker.Runner.HandleEscalateIncident | internal/worker/handlers.go:142-159 | Undisturbed and without faults: an open or escalated incident below its cap of 1, 3 or 4 gets one count more and, if that is below the cap, a further job after 1800, 600 or 120 seconds; any other incident is left alone and the job succeeds; not_found and invalid_argument change nothing |
| Worker.Runner.CommitHandOff | internal/service/incident/service.go:229-247 | Count and follow-up job together or not at all, exactly as Escalates lists them when the incident is the row read |
| Worker.Runner.ReportDone | internal/repository/sqliterepo/platform.go:237-251 | The job becomes done without holder iff it is running, and nothing else changes; the lease is given up |
| Worker.Runner.ReportFailure | internal/worker/runner.go:254-284 | A running job is parked iff the attempts are at the limit, the error is not_found, invalid_argument, permission_denied or state_invalid, or the handler was cancelled; otherwise it is queued again for the whole second of the end of the capped delay; nothing changes when the job is not running |
| Worker.Runner.ParkFee | internal/service/settlement/service.go:163-188 | A fee read as pending is parked with this note by one version-guarded step, under any interleaving and touching nothing else; any other is left alone |
| Worker.Runner.Execute | internal/worker/runner.go:218-241 | Under any interleaving and any fault: what the handler returned is what is reported for this very lease, an early fault is that outcome, and reported success of a settle job means a settled or waived fee; undisturbed and without faults, a running job ends as done if its handler can succeed on the rows and as parked if not |
| Worker.Runner.Poll | internal/worker/runner.go:200-215 | Every lease of the round was won in it and is over at its end, at most one batch; undisturbed, an empty round means that no job was queued or under an expired lease with its run time come |
| Settlements.SettlementService.Waive | internal/service/settlement/service.go:123-160 | Success means waived with this note; undisturbed, it succeeds iff the fee is pending or parked, and changes state, reference, note, time and version only |
| Catalog.CatalogService.CloseWindow | internal/service/catalog/service.go:339-367 | Success means closed; undisturbed, it succeeds iff the window exists and is open, and changes its closing time and version only |
| Idempotency.Manager.Purge | internal/idempotency/manager.go:96-98 | Keeps exactly the records that have not expired |
| Transactions.AsciiSpaces | internal/idempotency/manager.go:48 | Among ASCII characters the blanks of a key are 9 to 13 and 32 |
| Overdue.ValidateCheckpoints | internal/service/catalog/service.go:192-216 | Accepts exactly the lists of named nodes with strictly rising positive numbers and cutoffs and at least one mandatory node |
| Overdue.FirstOverdueCheckpoint | internal/service/dispatch/progress.go:329-342 | The loop finds the first mandatory unreported node whose start plus 60 seconds per cutoff minute plus grace has passed, with that deadline |
| Overdue.SearchIsComplete | internal/service/dispatch/progress.go:329-342 | Nothing is found iff nothing is overdue; otherwise an overdue node with none before it |
| Overdue.SearchIsMinimal | internal/service/dispatch/progress.go:329-342 | In an accepted list the node found has the least deadline of all mandatory unreported ones |
| Overdue.SweepAgainstReport | internal/domain/trail.go:166-175 | Overdue and classified as missed agree at whole seconds; they differ exactly within the first second after deadline and grace |
| Sweep.RoundsAreFair | internal/repository/sqliterepo/party.go:225-249 | A round lists parties on the trail in an order in which planned starts never fall and identifiers rise within one start, and leaves one out only for a full list of earlier ones |
| Sweep.SweepCovers | internal/service/dispatch/progress.go:284-325 | After an undisturbed round every overdue party it looked at has an unresolved incident at its first missed node; incidents already there are untouched |
| Sweep.SweepInWords | internal/service/dispatch/progress.go:284-325 | An undisturbed round gives each listed overdue party an open or escalated checkpoint_overdue incident at the first node it missed, and every incident it opens is a major one of that kind at such a node |
| Sweep.FullRoundsCoverEveryone | internal/service/dispatch/progress.go:284-325 | If the limit covers all parties on the trail, that holds of every one of them |
| Sweep.CoveredRoundsAreIdle | internal/service/dispatch/progress.go:284-325 | A round over parties that are all covered opens nothing |
| Sweep.RepeatedRoundsAreIdle | internal/service/dispatch/progress.go:284-325 | Repeating a round with nothing else changed opens nothing |
| Sweep.Sweeper.Visit | internal/service/dispatch/progress.go:296-322 | Under any interleaving: if the reports at the start of the call leave the party overdue, its incident is unresolved when the call returns |
| Sweep.Sweeper.SweepOverdueCheckpoints | internal/service/dispatch/progress.go:284-325 | Lists parties on the trail, planned starts never falling, and looks at exactly these; each was read during the round, and if that left it overdue its incident was unresolved then or later in the round; undisturbed, leaves exactly the incidents of SweepInWords and counts them |
| Race.RacesNeverOverbook | internal/repository/sqliterepo/permit.go:110-142 | At every moment of every schedule reserved = before + seats * winners <= total, no client runs out of tries, and a refusal is a quota refusal that is still true |
| Race.RacesEndAlike | internal/repository/sqliterepo/operations_test.go:105-166 | Whatever the schedule, when all n clients have finished exactly min(n, free/seats) were served |
| Race.RacesEnd | internal/repository/sqliterepo/operations_test.go:127-146 | An unfinished client can always make a further move, no schedule of such moves is longer than 2 n^2, and after that many all have finished |
| Race.MoveKeeps | internal/repository/sqliterepo/operations_test.go:127-146 | A client's conflicts never exceed the reservations made up to the version it read: each is paid for by another's success |
| Fee.PermitFee | internal/domain/operations.go:194-207 | The in-place computation equals the fee function; written out: base fee plus 15.00 per further grade for each seat, a fifth more on weekends, a tenth off from eight seats on, nothing for no seats; never less than nine tenths of the seats at the base fee |
| Fee.Surcharges | internal/domain/operations.go:194-207 | The easiest grade costs the base fee, each further grade 15.00 more, a weekend a fifth more rounded down to a cent, and eight seats or more a tenth less rounded up |
| Fee.MoreSeatsCostMore | internal/domain/operations.go:194-207 | Monotone in seats, across the rebate edge between 7 and 8 too |
| Fee.HarderCostsMore | internal/domain/operations.go:194-207 | Monotone in unit fee, difficulty and weekend |
| Fee.MergingNeverCostsMore | internal/domain/operations.go:194-207 | Subadditive: one party never pays more than the same hikers in two |
| Credentials.DeriveKey | internal/security/credential.go:95-123 | The nested loops compute the first keyLen bytes of T_1 \|\| T_2 \|\| ... of section 5.2 of RFC 8018; written out for keys of one block: one iteration gives the keyed hash of the salt and the bytes 0, 0, 0, 1, two give its exclusive or with the keyed hash of that hash |
| Credentials.DeriveBlock | internal/security/credential.go:106-120 | With one buffer overwritten and one updated byte by byte in place, the result is T_i = U_1 xor ... xor U_c |
| Credentials.Int32 | internal/security/credential.go:105 | The four bytes of a block index are its big-endian digits: weighted by 2^24, 2^16, 2^8 and 1 they add up to the index modulo 2^32 |
| Bits.XorByteLaws | internal/security/credential.go:116-118 | Exclusive or of bytes is commutative and associative, equal bytes cancel and zero changes nothing |
| Credentials.OneBlock | internal/security/credential.go:95-123 | The one-block key for at most one and for two iterations, without reference to the block functions |
| Credentials.KeysAreBlocks | internal/security/credential.go:104-122 | Each whole block of a key follows the blocks before it |
| Credentials.XorInto | internal/security/credential.go:116-118 | The in-place loop is the bytewise exclusive or |
| Credentials.ShorterKeysArePrefixes | internal/security/credential.go:95-123 | A shorter key is a prefix of a longer one |
| Credentials.DecodingUndoesEncoding | internal/security/credential.go:53-75 | Hexadecimal decoding undoes encoding |
| Credentials.EncodingIsPositional | internal/security/credential.go:53-64 | Byte k is written as its higher and then its lower lower-case digit |
| Credentials.DecodableTexts | internal/security/credential.go:67-75 | Exactly texts of even length made of digits of either case can be decoded |
| Credentials.EncodingUndoesDecoding | internal/security/credential.go:67-75 | Text that decodes re-encodes to itself up to case |
| Credentials.NewHasher | internal/security/credential.go:35-40 | A count that is not positive becomes 120000 |
| Credentials.Hasher.Hash | internal/security/credential.go:53-64 | The stored credential is the encoded 32-byte key and the encoded salt with the count used |
| Credentials.Hasher.Verify | internal/security/credential.go:67-85 | Internal exactly for unreadable material, accepted iff the stored bytes are derived again, unauthenticated otherwise |
| Credentials.VerifyAcceptsWhatHashStored | internal/security/credential.go:53-85 | What was hashed is accepted whatever the verifier's own count, and another password only if it derives the same key |
| UnitOfWork.TxManager.Query | internal/storage/sqlite/db.go:148-153 | A statement goes to the open transaction if there is one and is committed on its own otherwise |
| UnitOfWork.TxManager.Run | internal/storage/sqlite/db.go:164-190 | Running any program of nested calls, handled errors and panics leaves committed and working state as the two semantics say |
| UnitOfWork.TxManager.RunInTx | internal/storage/sqlite/db.go:164-190 | A nested call joins; a root call that does not succeed leaves the committed state as it was |
| UnitOfWork.UnitsOfWorkAreAtomic | internal/storage/sqlite/db.go:161-190 | For any nesting: a failed or panicking root leaves the database unchanged; a successful one equals its effective statements run flat in order; it succeeds iff begin, function and commit do |
| UnitOfWork.NestingIsInvisible | internal/storage/sqlite/db.go:164-167 | Removing every inner call of the manager changes neither state nor result |
| UnitOfWork.HandledInnerErrorsKeepWrites | internal/storage/sqlite/db.go:161-167 | The witness against the comment: an inner call that fails inside a successful root keeps its writes, where the same call alone would not |
| UnitOfWork.AnyErrorRollsBack | internal/storage/sqlite/db.go:161-190 | If the program text handles no error, the failure of any statement or inner call at any depth is the root's result and the database is unchanged; a panic has that effect in every text |
| UnitOfWork.ErrorsAlwaysRollBackIffNoneIsHandled | internal/storage/sqlite/db.go:161-190 | Whatever its statements do and whatever state it meets, any error rolls the whole unit of work back iff its text handles no error |
| UnitOfWork.FailuresSurviveOnlyInHandlers | internal/storage/sqlite/db.go:164-190 | A successful root contains a failed part iff a handler recovered in it, and every failed part lies in the failed attempt of a handler that succeeded |
| Storage.Store.ReserveSeats | internal/repository/sqliterepo/permit.go:110-142 | Conditional update of reserved and version in place, or the error of the re-read row; other columns and rows unchanged |
| Storage.Store.ReleaseSeats | internal/repository/sqliterepo/permit.go:146-164 | Guarded decrement in place, or a conflict that changes nothing |
| Storage.Store.CloseWindow | internal/repository/sqliterepo/permit.go:167-181 | Sets the closing time and raises the version of an open window, or state_invalid |
| Storage.Store.FindWindow | internal/repository/sqliterepo/permit.go:61-65 | The scan agrees with the specification search |
| Storage.Store.InsertWindow | internal/repository/sqliterepo/permit.go:31-52 | Appends an empty window, or refuses a quota that is not positive or a second window of the day |
| Storage.Store.ApplyStateChange | internal/repository/sqliterepo/party.go:134-167 | Moves state and version under the state and version guard; optional columns are overwritten only by present values |
| Storage.Store.AddMember | internal/repository/sqliterepo/party.go:170-186 | Adds exactly one member, or refuses a reference already on this roster |
| Storage.Store.CreateSettlement | internal/repository/sqliterepo/incident.go:206-225 | Inserts one settlement per party under the table's checks |
| Storage.Store.ApplySettlement | internal/repository/sqliterepo/incident.go:280-296 | Version-guarded update in place, or a version conflict |
| Storage.Store.FindUnresolved | internal/repository/sqliterepo/incident.go:132-138 | The scan agrees with the specification search |
| Storage.Store.CreateIncident | internal/repository/sqliterepo/incident.go:35-54 | Appends the incident unless the partial unique index refuses it |
| Storage.Store.ApplyIncident | internal/repository/sqliterepo/incident.go:113-129 | Version-guarded update in place, or a version conflict |
| Storage.Store.Enqueue | internal/repository/sqliterepo/platform.go:128-152 | Appends one queued job, or refuses a limit that is not positive |
| Storage.Store.Lease | internal/repository/sqliterepo/platform.go:212-219 | Leases one job that is queued and due, counting the attempt; a job no longer due is untouched |
| Storage.Store.MarkDone | internal/repository/sqliterepo/platform.go:237-251 | Finishes a job that is running, whoever holds its lease |
| Storage.Store.MarkFailure | internal/repository/sqliterepo/platform.go:255-276 | Parks or re-queues a job that is running, whoever holds its lease |
| Storage.Store.ReclaimExpired | internal/repository/sqliterepo/platform.go:280-291 | Puts back exactly the running jobs with a lease time not after now, changing state, holder and lease only, and counts them |
| Storage.Store.SaveRecord | internal/repository/sqliterepo/platform.go:364-380 | Stores one record per key and actor; a second one is a conflict, expired or not |
| Storage.Store.DeleteExpired | internal/repository/sqliterepo/platform.go:383-391 | Deletes exactly the records whose expiry is not later than now |
| Storage.Store.CreateReport | internal/repository/sqliterepo/party.go:328-344 | Stores one report per party and node |

## Left out

- HTTP, JSON, logging, configuration, seeding, login, sessions, tokens: plumbing.
- Audit rows: one more insert in each transaction that nothing here reads.
- Roles, trimming and format checks of text (for a member, their verdict is part of the input), schedules, phones, party size limits and the trail's own status: they refuse a request before anything modelled here happens.
- Trails and checkpoints as tables: they are parameters, so an edit of a trail between a reading and a commit is not followed.
- Party codes, contact data, notes, member kinds and phones: no rule modelled here depends on them.
- Database failures outside handlers: a failed transaction is an action that does not happen. Around handlers they are the `Faults` parameter, and a worker that crashes stays in its phase for ever.
- The view after a write: services read the row again to build their response; only the view stored under an idempotency key is modelled.
- Row identifiers are positions, and settlements are keyed by party, which their unique index allows.
- The 64-bit width of seconds, cents, versions and nanoseconds: integers are unbounded here. `ComputeBackoff` bounds its intermediate values.
- A stored instant of 0 is read back as absent; this is modelled for the expiry of a record only.
- Fingerprints are the pair of party and size they are computed from; hash collisions are not modelled.
- The readiness report's counters: only the verdict is modelled.
- The recurring jobs' handlers, their hooks and `EnsureRecurring`: such a job is queued at any time and does nothing here; the sweep itself is modelled in `Sweep.dfy`.
- Randomness (salt, references), the keyed hash and the constant-time comparison: parameters, or plain equality.
- A key length beyond the limit of section 5.2 of RFC 8018 is not refused by the code; the block index wraps around, as `Int32` says.
- Notes and reporters of progress reports: no rule modelled here depends on them.
- Reports only while on the trail and in rising order, and stored cutoffs that always rise: false under interleaving, as both are checked before the transaction; `ReportCheckpoint` states them for an undisturbed call.
- An open critical incident implies a stopped party: false, see above.
- EnsureWindow: of the error path it states the refused quota only, because a failed read cannot be told from a lost connection here.
- Interfere: its own body does nothing; it stands for the environment and claims only what any allowed actions of others satisfy.
- AbortParty: the caller's rights are not checked, as in the program, which calls it from the incident service only.
