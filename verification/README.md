# Sandbox control plane: a verified model

A Dafny model of the control plane under `api/`: the parts that run as protocols over shared state, and the two
text transformations that must not be got wrong. `dafny verify dfyconfig.toml` checks everything.

| file | models |
|---|---|
| `Registry.dfy` | the session table, its status machine and its guarded row updates |
| `SessionEffects.dfy`, `Sessions.dfy` | the session lifecycle against Docker: what each operation does to one session, and the service whose methods do it step by step, with every Docker call free to succeed, to fail without effect, or to take effect and still raise |
| `SessionRuns.dfy`, `Recovery.dfy` | any run of whole operations; crashes between any two steps, and reconciliation |
| `Admission.dfy` | count, then insert some awaits later: the pattern behind both caps, with any number of requests in flight |
| `SessionLocks.dfy` | the lifecycle operations interleaved at every await, `transition` split into its read and its write |
| `TenantCap.dfy` | creates and lifecycle operations together, interleaved at every step, and the cap on a tenant's sessions |
| `Reapers.dfy` | the idle and TTL sweep, and the deadlines the API reports |
| `Idempotency.dfy`, `IdempotencyAnswers.dfy` | the replay cache: requests interleaving at every await over lock objects, a lock map and a TTL table; what is answered, told from the events of a run alone |
| `Audit.dfy` | the fail-closed audit log with its memory buffer, fallback file and outage timer |
| `OrphanReaper.dfy`, `OrphanSafety.dfy` | the budgeted sweep; sweeps interleaved with creates |
| `Output.dfy` | output capping, the collecting exec and the streaming exec |
| `Shell.dfy` | shell quoting, and the POSIX tokenizer that has to undo it |
| `Paths.dfy` | workspace paths |
| `Processes.dfy`, `SessionProcesses.dfy` | background process rows: refresh, stop, reap, the cap, the exit file; sessions and their processes together |

Where the source changes state the model is a class whose methods are proved against a specification function
(`StopEffect`, `Emitted`, `Next`, `ReconcileEffect`, and so on), and the theorems are about those functions, over every
run or every interleaving. Time, Docker outcomes, write outcomes and the order in which tasks run are parameters, so
each theorem holds for all of them.

## What the proofs found

- Destroying a session records DESTROYED even when a removal raised (`_destroy_locked` writes it in `finally`);
  `DestroyLeavesNothingIff` says exactly when something is left behind and `LeftoversAreForGood` that nothing ever
  cleans it up while the session row exists.
- A create that fails after Docker made the container removes only the volume: `FailedCreateLeavesContainerIff`.
- A container whose id was never recorded survives destroy and reconciliation: `UnrecordedContainerSurvives`.
- A response that is not cached drops the key's lock object while others wait on it, so two handler runs of one key
  can overlap, event streams included, although the comment in `dispatch` says the lock rules that out:
  `NeverOverlapsIffCacheable`.
- `purge_expired_idempotency` says the reaper calls it, but nothing does; a lookup passes over expired rows all the same
  (`ReplayedIffFresh`), so they only take up space.
- ARCH-200 has all exec and lifecycle operations take the session's lock, but the resume inside exec and file
  operations does not. One such resume beside a destroy can leave a destroyed session RUNNING
  (`UnlockedResumeBreaksSafety`), and two of them alone, say two parallel execs on an idle-stopped session, end one in
  a refused transition (`TwoResumesCollide`). The lifecycle is safe if and only if every operation that may arrive
  takes the lock: `SafeIffAllTakeTheLock`.
- Reading and listing files resumes a stopped session even while the audit log is failing; writing, deleting and exec
  check it first (`AutoResumeEffect`).
- `hard_destroy_at` counts from the last activity, the reaper from creation: a row is always expired by its reported
  deadline (`DeadlinesAreKept`), but it can be expired a whole TTL before (`HardDeadlineIsMissed`); the two
  agree only for a row with no activity since its creation.
- No operation ever enters IDLE (`RunKeepsSound`).
- A second reconciliation counts live rows without a container id as orphaned again (`ReconcileIsIdempotent`).
- The orphan sweeper's documentation names a crash between creating the volume and inserting the row; the row is
  inserted first, so that cannot happen, and with an intact table nothing `create` made is ever swept. After a restore
  nothing is lost if and only if the restored table has the row of every session that owns a resource, and of every
  create still making its own: `RestoreIsSafeIffOwnersKept`.
- A dump to the fallback file that breaks after writing some lines duplicates them: `ExactlyOnceIffNothingTorn`.
- Path resolution judges only where a path ends: `../workspace/x` is accepted (`LeavingAndReturningIsAccepted`);
  `LeavesIffHeightFalls` says which inputs leave the workspace on the way.
- `create` and process start count before they insert: with `n` of them in flight at once the limit is exceeded by up to
  `n - 1`, and that much is reached. Processes keep their limit if and only if starts do not overlap, or none is allowed
  (`StartsKeepCapIff`). Sessions need more, because a row can get its place back: a resume without the lock that has
  found a session STOPPED writes RUNNING after a destroy has given the place up and another create has taken it. The
  tenant's cap holds if and only if nobody is admitted at all, or its creates never overlap from count to return and no
  session that may be destroyed may be resumed without the lock (`CreatesKeepCapIff`, `RevivalExceedsCap`).
- A create that dies after recording the container's id is left CREATING by every later reconciliation, and counts
  against the cap until it is destroyed; one that dies just before recording it leaves a container that not even a
  destroy removes (`CreateCrash`).

## Model

| member | source | states |
|---|---|---|
| Registry.Registry.Insert | api/registry.py:296-324 | a new row is CREATING with no container id and both times now; an existing id is refused and nothing changes |
| Registry.Registry.SetContainer | api/registry.py:326-332 | records the container id of one row and nothing else |
| Registry.Registry.Transition | api/registry.py:334-356 | moves exactly along the table, stamps destroyed_at only for DESTROYED, and otherwise reports why and changes nothing |
| Registry.Registry.TouchActivity | api/registry.py:358-375 | moves the last activity of a RUNNING or IDLE row, and is silent on any other or a missing one |
| Registry.Registry.TransitionOrphaned | api/registry.py:894-911 | forces any live row to STOPPED, outside the table, and leaves STOPPED, DESTROYING and DESTROYED rows alone |
| Registry.Registry.Select | api/registry.py:402-462 | lists exactly the rows a condition picks, each once |
| Sessions.SessionService.Create | api/sessions.py:101-170 | which of audit, cap and limits refuses, in that order, with nothing changed; otherwise the new session is what provisioning, or its rollback, leaves, and no other session changes |
| Sessions.SessionService.Provision | api/sessions.py:121-145 | volume, quota, container, recorded id and start, in order, stopping at the first call that raises |
| Sessions.SessionService.ProvisionContainer | api/sessions.py:133-140 | the container's part: created, recorded, started, stopping at the first call that raises |
| Sessions.SessionService.Rollback | api/sessions.py:146-157 | the volume goes, then the row moves to DESTROYED unless removing the volume raised |
| Sessions.SessionService.CountConcurrent | api/registry.py:409-418 | counts exactly the tenant's rows that are neither DESTROYING nor DESTROYED |
| Sessions.SessionService.Stop | api/sessions.py:178-191 | outcome and whole new state for every status, missing or foreign row and Docker ending |
| Sessions.SessionService.Resume | api/sessions.py:193-209 | outcome and whole new state for every status, missing or foreign row and Docker ending |
| Sessions.SessionService.Prepare | api/exec.py:232-254 | the resume without the lock that exec and, in api/files.py, the file operations perform: lookup, exec's arguments, status, restart, in that order; reading and listing files skip the audit check |
| Sessions.SessionService.Destroy | api/sessions.py:211-219 | outcome and whole new state for every status, missing or foreign row and Docker ending |
| Sessions.SessionService.DestroyLocked | api/sessions.py:253-278 | DESTROYING, then container, quota and volume in order until one raises, then DESTROYED in any case |
| Sessions.SessionService.Teardown | api/sessions.py:265-276 | container, quota and volume removal, with the id on the row deciding about the container |
| Sessions.SessionService.BumpActivity | api/sessions.py:88-97 | only the last activity of a RUNNING or IDLE row moves, and nothing when the row is gone or pinning is off |
| Sessions.SessionService.ReapStop | api/sessions.py:221-242 | like stop, but passing over a row that is gone or no longer RUNNING or IDLE |
| Sessions.SessionService.ReapDestroy | api/sessions.py:244-251 | like destroy, but passing over a row already being destroyed |
| Sessions.SessionService.FinishDestroys | api/sessions.py:304-325 | every DESTROYING session, and no other, gets its removal; the count is of those that completed |
| Sessions.SessionService.MarkOrphans | api/sessions.py:327-355 | every live session without a container id, or without a container, and no other, is forced to STOPPED; the count includes STOPPED rows without an id |
| Sessions.SessionService.ReconcileOnStartup | api/sessions.py:289-361 | two loops over listed rows come to one effect applied to every session; the two counts are the sizes of the finished and the orphaned sets |
| SessionEffects.DestroyLocked | api/sessions.py:253-278 | a live session passes through DESTROYING to DESTROYED whatever Docker does; any other is refused unchanged |
| SessionEffects.Rollback | api/sessions.py:146-157 | the rollback of a failed create never removes the container, keeps a volume exactly when its removal did not take effect, and moves the row only if it did not raise |
| SessionRuns.EffectFollowsEdges | api/registry.py:129-136 | every operation moves a row only along edges of the table, or by the recovery edge to STOPPED |
| SessionRuns.CreateFollowsEdges | api/sessions.py:101-157 | so does a create, from CREATING |
| SessionRuns.RunKeepsSound | api/registry.py:334-375 | over all runs: IDLE never appears, destroyed_at is set exactly on DESTROYED rows, RUNNING implies a container id, created_at <= last_activity_at <= now |
| SessionRuns.StampsFollowStatus | api/registry.py:334-375 | last_activity_at moves exactly with the status or by a touch, destroyed_at with DESTROYED, each to the time of that write; nothing else in a row ever changes |
| SessionRuns.EnteredFrom | api/registry.py:129-136 | from which statuses each status can be entered |
| SessionRuns.AuditRefusesIffUnhealthy | api/sessions.py:178-219 | on every row, an operation that checks the audit log is refused with nothing changed exactly when the log is unhealthy; to the others it makes no difference |
| SessionRuns.UnhealthyAuditChangesNothing | api/audit.py:69-77 | over every run, creates included, the operations that met an unhealthy audit log might as well not have been asked for |
| SessionRuns.NotFoundIff | api/registry.py:386-400 | a tenant's operation finds no session exactly when it is another tenant's or DESTROYED, and then leaves it alone |
| SessionRuns.OtherTenantsDoNothing | api/sessions.py:178-219 | over every run, what becomes of a session depends on its own tenant's operations and the reaper's alone, in whatever world of other sessions |
| SessionRuns.StopsIff | api/sessions.py:178-242 | exactly when a stop, by the API or the reaper, reaches Docker, what it leaves of row, container and volume, and when it succeeds |
| SessionRuns.ResumesIff | api/sessions.py:193-209 | the same for a resume, and for the one inside exec and file operations |
| SessionRuns.DestructionIsFinal | api/registry.py:129-136 | over all runs: DESTROYING leads only to DESTROYED, and a DESTROYED row never changes again |
| SessionRuns.LeftoversAreForGood | api/sessions.py:253-278 | over all runs: what Docker still holds for a DESTROYED session stays |
| SessionRuns.DestroyLeavesNothingIff | api/sessions.py:253-278 | exactly when a destroy succeeds, and exactly when it leaves neither container nor volume |
| SessionRuns.FailedCreateLeavesContainerIff | api/sessions.py:121-157 | exactly when a create succeeds, what it then leaves, and exactly when a failed one leaves a container, a running one, a volume, and which status |
| SessionRuns.FailedCreateLeavesNothingIff | api/sessions.py:146-157 | exactly when a failed create leaves nothing at all |
| SessionRuns.CreatedRow | api/sessions.py:113-145 | the row a create leaves: names, times and recorded id, for every ending of its calls |
| SessionRuns.RunKeepsCap | api/sessions.py:103-107 | in every serial run no tenant exceeds its cap of concurrent sessions |
| SessionRuns.EffectIsStep | api/sessions.py:178-325 | no whole operation gives a session a place under the cap that it did not hold |
| SessionRuns.EdgeIsStep | api/registry.py:129-136 | nor does any edge of the table, taken from the row's present status |
| SessionRuns.CreateIsItsSteps | api/sessions.py:101-157 | an admitted create, done in one go, is its count, its insert of a fresh row and its writes to it |
| Admission.NeverAbovePeak | api/processes.py:76-112 | if no row is given a place back, any interleaving of counts, inserts, own writes, rewrites and deletions exceeds the limit by at most n - 1, n being the most requests in flight at once |
| Admission.PeakIsReached | api/processes.py:76-112 | limit + n - 1 is reached by n requests that all count before any inserts |
| Admission.RevivalExceeds | api/sessions.py:103-118 | one request at a time exceeds the limit if a row can be given its place back |
| Admission.WithinIffSerial | api/processes.py:76-112 | the limit holds in every run if and only if nobody is admitted, or at most one request is in flight and no row is given a place back |
| Recovery.ReconcileHeals | api/sessions.py:289-361 | with succeeding calls: no DESTROYING row, no CREATING, RUNNING or IDLE row without a container, no volume of an orphaned session touched |
| Recovery.ReconcileIsIdempotent | api/sessions.py:289-361 | a second pass changes no row and finishes no destroy, even with failing calls |
| Recovery.ReconcileCounts | api/sessions.py:289-361 | the two counts of any reconciliation: the destroys it completed, and the rows it stopped with those already STOPPED that have no container id |
| Recovery.DestroyIsItsSteps | api/sessions.py:253-278 | the uninterrupted destroy is its list of committed steps |
| Recovery.ReconcileIsSomeSteps | api/sessions.py:304-325 | a reconciliation with any failures is a prefix of its steps, all of them when calls succeed |
| Recovery.CrashRecovery | api/sessions.py:253-325 | die anywhere in a destroy and anywhere in any number of reconciliations, with operations between: once DESTROYING is committed, the next reconciliation with succeeding calls ends DESTROYED with nothing left; before that nothing was touched |
| Recovery.UnrecordedContainerSurvives | api/sessions.py:139-143 | a destroy removes the container if and only if there is none or the row knows its id |
| Recovery.CreateIsSevenSteps | api/sessions.py:121-145 | a create whose calls succeed is its seven steps |
| Recovery.CreateCrash | api/sessions.py:113-145 | what a create that dies at each of its steps comes to after the next reconciliation, and after a destroy |
| SessionLocks.WorkIsEffect | api/sessions.py:178-278 | the steps of an operation, the unlocked resume included, run without interruption, come to its sequential effect |
| SessionLocks.RefusedIffUnhealthy | api/audit.py:69-77 | in every interleaving, a finished request was refused by the audit log exactly when it checks the log and met it unhealthy, and a refused one has done nothing |
| SessionLocks.StepKeepsInv | api/sessions.py:80-86 | every step of every task keeps the invariant: who holds a lock is alone in its session, and what it will leave is its effect on the replayed history |
| SessionLocks.LockedOperationsAreSerializable | api/sessions.py:178-251 | every interleaving of locked operations is the serial run in release order: each outcome, and each session whose lock is free; the rest are those refused by the audit log |
| SessionLocks.LockMakesLifecycleSafe | api/sessions.py:178-278 | with succeeding calls no transition is refused, and when the lock is free row, container and volume agree, so DESTROYING shows only while the lock is held |
| SessionLocks.UnlockedResumeBreaksSafety | api/exec.py:241-254 | one resume without the lock can end with a RUNNING row, no container and no volume, and a failed destroy |
| SessionLocks.TwoResumesCollide | api/exec.py:241-249 | two unlocked resumes of one stopped session end the second in a refused transition, with no destroy and every call succeeding |
| SessionLocks.SafeIffAllTakeTheLock | api/sessions.py:80-86 | every run of the allowed operations with succeeding calls is safe if and only if all of them take the lock |
| TenantCap.StepNeverRevives | api/registry.py:334-356 | within the invariant no lifecycle step, the lone UPDATE of a transition included, gives a row of the tenant its place back |
| TenantCap.LifecycleKeepsInv | api/sessions.py:178-278 | every lifecycle step keeps it, where no session that may be destroyed may be resumed without the lock: a row about to be written live still holds its place |
| TenantCap.CreateKeepsInv | api/sessions.py:101-157 | so does every step of a create, which writes its own row without the lock |
| TenantCap.CreatesStayBelowPeak | api/sessions.py:101-157 | over every interleaving of creates and lifecycle steps under that condition, a tenant's sessions exceed its cap by at most n - 1, n being its creates in flight at once |
| TenantCap.OverlappingCreatesExceedCap | api/sessions.py:103-118 | n creates that all count before any inserts reach the cap plus n - 1 |
| TenantCap.RevivalExceedsCap | api/exec.py:241-249 | one create alone exceeds a full cap: a destroy gives a place up, the create takes it, an unlocked resume gives it back |
| TenantCap.CreatesKeepCapIff | api/sessions.py:101-157 | the cap holds in every run if and only if nobody is admitted, or at most one create is in flight and no session that may be destroyed may be resumed without the lock |
| Reapers.Reaper.Tick | api/reaper.py:89-111 | the two loops come to one effect applied to every session |
| Reapers.Reaper.StopIdle | api/reaper.py:93-104 | the idle loop applied to every session, leaving out those with running processes |
| Reapers.Reaper.DestroyExpired | api/reaper.py:106-111 | the expiry loop applied to every session |
| Reapers.TickPointwise | api/reaper.py:89-111 | expired rows end DESTROYED with nothing left, idle rows without processes end STOPPED, every other session is unchanged |
| Reapers.StoppedBeforeDestroyed | api/reaper.py:93-111 | for all Docker endings, a session both idle and expired is stopped before it is destroyed, so a failed removal leaves a stopped container |
| Reapers.DeadlinesAreKept | api/sessions.py:32-48 | over every run: idle_stop_at has passed exactly for idle candidates; a passed hard_destroy_at implies expired; and the converse holds at all times iff there was no activity since creation |
| Reapers.HardDeadlineIsMissed | api/sessions.py:41-47 | a session can be expired a whole TTL before its reported hard deadline |
| Idempotency.IdempotencyMiddleware.LockFor | api/idempotency.py:79-86 | the key's lock object, made if the map has none |
| Idempotency.IdempotencyMiddleware.ReleaseInflight | api/idempotency.py:88-90 | drops whatever lock object the map has for the key, held or not |
| Idempotency.IdempotencyMiddleware.LookupIdempotency | api/registry.py:824-847 | the key's row if it has not expired |
| Idempotency.IdempotencyMiddleware.HandlerReturned | api/idempotency.py:137-182 | the handler's return is one step of the protocol: to storing if cacheable, else straight to dropping the lock object |
| Idempotency.IdempotencyMiddleware.Dispatch | api/idempotency.py:118-183 | one stretch of dispatch between two awaits is one step of the protocol |
| Idempotency.StepKeepsInv | api/idempotency.py:92-183 | every step keeps: a lock object missing from the map while held or awaited means the key is cached |
| Idempotency.KeyIsServedOnce | api/idempotency.py:92-183 | over every interleaving within the TTL, if handlers of the key only raise or return cacheable responses: runs never overlap, at most one returns, every finished request is answered from it |
| Idempotency.UncacheableOverlaps | api/idempotency.py:150-183 | one response that is not cached gives a run in which two handlers of the key overlap |
| Idempotency.CacheableNeverOverlaps | api/idempotency.py:92-183 | handlers of a key that only raise or return cacheable responses never overlap within the TTL, even when stores fail |
| Idempotency.NeverOverlapsIffCacheable | api/idempotency.py:150-183 | handlers never overlap in any run within the TTL, whether or not stores succeed, if and only if every response they may return is cacheable |
| IdempotencyAnswers.ReplayedIffFresh | api/registry.py:824-884 | over every run: a request that looks is answered from the cache if and only if the last 2xx response stored for its key, event streams not counting, was stored less than a TTL ago, and with exactly that response or its route; otherwise it goes on to the lock or the handler |
| IdempotencyAnswers.EveryAnswerIsExplained | api/idempotency.py:118-183 | over every run, the answer of a finished request follows from what became of it: its handler's response, an exception, or a stored response that had not expired when it looked |
| IdempotencyAnswers.LocksAreGivenBack | api/idempotency.py:129-183 | over every run, whatever is raised, cancelled or fails: a lock object is held exactly by the one request inside with it, so no waiter is stuck behind one that has left |
| Audit.AuditEmitter.Emit | api/audit.py:101-114 | backlog first, then the record; on the first failed write the rest stays buffered, the outage clock starts once, and the dump is considered |
| Audit.AuditEmitter.Precheck | api/audit.py:69-77 | passes exactly while no outage is recorded |
| Audit.AuditEmitter.MaintenanceTick | api/audit.py:117-143 | nothing when healthy; else heartbeat, backlog and recovery, or the dump |
| Audit.AuditEmitter.DrainBuffer | api/audit.py:154-169 | exactly the written prefix leaves the buffer for the primary file |
| Audit.AuditEmitter.MaybeFlushToFallback | api/audit.py:171-197 | only past the budget with something buffered: the whole buffer moves, or a prefix is copied and the buffer kept |
| Audit.EveryRecordIsAccountedFor | api/audit.py:101-197 | over every run no record is lost: each is in exactly one of primary file, completed dump and buffer, each in emit order, the buffer being the tail; the fallback file is the run's dumps one after the other, each the whole buffer it then held or, if it broke, a prefix of it |
| Audit.LinesAreConserved | api/audit.py:101-197 | the three places hold as many records as were emitted, plus the lines of broken dumps |
| Audit.ExactlyOnceIffNothingTorn | api/audit.py:171-197 | delivery is exactly once if and only if no broken dump had written a line |
| Audit.AtomicDumpsTearNothing | api/audit.py:171-197 | so it is when every broken dump writes nothing |
| Audit.PrecheckPassesOnlyWhenAllIsOnDisk | api/audit.py:69-77 | whenever precheck passes the buffer is empty and every record has its own place in the primary file or a completed dump |
| Audit.OutageIsExact | api/audit.py:101-143 | over every run: precheck passes if and only if every call whose writes failed was followed by one whose writes all succeeded; a recorded outage carries the time of its first failure since the last such call |
| Audit.DumpsIffOverdue | api/audit.py:171-197 | a call dumps the buffer exactly when its writes failed, the outage has lasted the whole budget, and a record is left unwritten |
| Audit.TornDumpDuplicates | api/audit.py:187-195 | a dump that breaks after one line and a later recovery put that record in both files |
| OrphanReaper.SweepPass | api/orphan_reaper.py:169-235 | one pass removes the first reapable items within the budget and returns what is left of it |
| OrphanReaper.Tick | api/orphan_reaper.py:128-167 | two passes with one budget equal one greedy pass over containers then volumes; failed removals use no budget |
| OrphanReaper.ReapedExactly | api/orphan_reaper.py:182-235 | a tick removes at most the cap; only listed items with a label, of a session the registry does not know, of unknown age or past the grace window; and all of those that can be removed unless the cap is used up |
| OrphanSafety.SweepIsSweeperPass | api/orphan_reaper.py:182-235 | the sweep steps of this model, left alone, remove exactly what the sweeper's pass removes without a cap |
| OrphanSafety.CreateIsTheseSteps | api/sessions.py:113-157 | its create steps, left alone, leave exactly the volume and container that the create leaves, for every ending of its calls |
| OrphanSafety.SweepsNeverTakeWhatCreateMade | api/sessions.py:113-139 | with an intact table, no interleaving of creates and sweeps, at any grace, removes what a create made |
| OrphanSafety.RestoredBackupLosesData | api/orphan_reaper.py:193-196 | a table restored from before the session lets a sweep take its volume |
| OrphanSafety.RestoreIsSafeIffOwnersKept | api/orphan_reaper.py:193-196 | after any run, a restored table lets no sweep take what a create made if and only if it has kept the rows of all owners and of all unfinished creates |
| Output.Capture.AppendCapped | api/docker_client.py:112-128 | up to the cap, then truncated for good; the other stream is untouched |
| Output.Capture.Take | api/docker_client.py:112-128 | after any chunks each buffer is the first CAP bytes of its stream, and a stream is truncated iff it exceeds the cap |
| Output.ExecInContainer | api/docker_client.py:524-548 | the collected result is exactly that specification |
| Output.ExecStreamInContainer | api/docker_client.py:635-645 | the live events are the non-empty pieces in order, then the exit code |
| Output.RunStream | api/exec.py:167-211 | what is sent is the script of the pieces, then a result that meets the same specification |
| Output.ScriptKeepsContract | api/exec.py:175-193 | for every interleaving: chunks stop at the one that crosses the cap, one marker right after it iff the stream overflows, and the received bytes extend the capped buffer and are a prefix of the stream |
| Output.StreamingAgreesWithSync | api/exec.py:196-211 | streaming ends with the collecting exec's stdout, stderr and truncated streams |
| Output.CollectsEachStream | api/docker_client.py:524-548 | each output field is the longest prefix of its own stream within 8 MiB; exactly the longer streams are reported truncated, stderr first |
| Output.FramesAreWritten | api/docker_client.py:530-534 | what is capped is each stream's bytes, end to end |
| Output.CuttingDoesNotMatter | api/docker_client.py:530-548 | frames that write the same bytes per stream give the same result, however cut and interleaved |
| Shell.ReadsQuoted | api/docker_client.py:45-49 | anywhere outside quotes, a quoted string adds exactly its own text to the word being read; one with a NUL cannot be read |
| Shell.ReadsJoined | api/docker_client.py:699 | in front of a blank, the printed list reads as its words, and then the rest of the line |
| Shell.RoundTripIffNulFree | api/docker_client.py:699 | the shell reads back exactly the printed list if and only if no word holds a NUL |
| Shell.JoinedIsInjective | api/docker_client.py:699 | two different lists never print alike |
| Shell.SpawnLineRunsArgv | api/docker_client.py:714 | the whole spawn line reads as a background subshell that execs exactly the list, every word data, redirected to exactly the log path |
| Shell.ExportLineSetsValue | api/docker_client.py:700 | an export line sets exactly its value |
| Paths.SplitOfJoin | api/files.py:53 | splitting undoes joining, for segments without slashes |
| Paths.NormalizedIsWalk | api/files.py:53 | the normalised path below a directory is where a walk along its segments ends |
| Paths.ResolvesByDestination | api/files.py:48-62 | the outcome of every input, sub-code included: refused for its form, or decided by where it leads |
| Paths.AcceptedIsCanonical | api/files.py:48-62 | an accepted path is `/workspace` and segments that are never empty, `.` or `..`, and is where the input leads |
| Paths.ResolvingAgainChangesNothing | api/files.py:48-62 | the accepted remainder resolves to the same path |
| Paths.SafeCwdIffNeverUp | api/processes.py:344-351 | let through are exactly the named directories that start with neither `/` nor `~` and whose walk never goes up |
| Paths.SafeCwdIsAccepted | api/processes.py:344-351 | every NUL-free working directory let through resolves, and its walk stays below the workspace at every step |
| Paths.InsideIffNeverBelow | api/files.py:53 | a walk has stayed inside the workspace if and only if at no point there were more `..` than directories behind it |
| Paths.LeavesIffHeightFalls | api/files.py:48-62 | which inputs leave the workspace on the way; those that do not are accepted, and accepted ones are exactly those that end inside |
| Paths.LeavingAndReturningIsAccepted | api/files.py:53-62 | a path that leaves the workspace and returns by name is accepted by the file service and refused by the process service |
| Processes.FirstMarkDecides | api/registry.py:788-812 | in every interleaving of process writes the first mark decides exit code and time |
| Processes.ExitIsFinal | api/registry.py:788-812 | an EXITED row changes in nothing but its last poll until it is deleted |
| Processes.SerialRunKeepsCap | api/processes.py:76-80 | in every serial run a session stays within the smaller of its own and the tenant's limit |
| Processes.StartIsCountThenInsert | api/processes.py:76-112 | the serial start is a count followed by an insert |
| Processes.WriteIsStep | api/registry.py:788-820 | every other write is at most one step that gives no row a place |
| Processes.StartsStayBelowPeak | api/processes.py:76-112 | however starts and other writes interleave, with at most n starts in flight the limit is exceeded by at most n - 1 |
| Processes.OverlappingStartsExceedCap | api/processes.py:76-112 | n starts that all count before any inserts exceed the limit by exactly n - 1 |
| Processes.StartsKeepCapIff | api/processes.py:76-112 | the limit holds in every run with at most n starts in flight if and only if it is 0 or n is at most 1 |
| Processes.ProcessTable.CountRunning | api/registry.py:768-776 | counts exactly the session's RUNNING rows |
| Processes.ProcessTable.MarkProcessExited | api/registry.py:788-804 | marks a RUNNING row, and changes nothing else |
| Processes.ProcessTable.TouchProcessPolled | api/registry.py:806-812 | moves the last poll of a row in any state |
| Processes.ProcessTable.DeleteProcess | api/registry.py:814-820 | deletes the row of that session, and no other session's |
| Processes.ProcessTable.ListRunning | api/registry.py:778-786 | lists exactly the session's RUNNING rows, each once |
| Processes.ProcessTable.GetProcess | api/registry.py:739-751 | finds a row only for its own session and tenant |
| Processes.ProcessService.Start | api/processes.py:61-112 | starts exactly when the working directory, the session, the cap and the spawn allow, adding one RUNNING row |
| Processes.ProcessService.MaybeRefresh | api/processes.py:273-317 | which write a refresh makes and which row it returns, throttled, without container, on a Docker error, alive or gone, from a possibly stale snapshot |
| Processes.ProcessService.Stop | api/processes.py:156-185 | no-op on EXITED rows and unknown pids; SIGKILL only after a whole grace period alive; then a forced refresh; a Docker error changes nothing |
| Processes.ProcessService.DeleteRow | api/processes.py:187-196 | the row is gone whether or not the process is; it stays when the stop raises or the row is not the caller's |
| Processes.ProcessService.ReapSessionProcesses | api/processes.py:231-253 | every RUNNING row of the session ends EXITED with 137 and its known pid is signalled; no other row changes; the count is exact |
| Processes.ReapedRows | api/processes.py:231-253 | what each row becomes when its session's processes are reaped |
| Processes.RefreshesFollowTheProcess | api/processes.py:273-317 | over any refreshes, from any snapshots: a running row exits exactly when one of them has found the process gone, with the code and time of the first of those; each poll that finds it alive is recorded; nothing else changes |
| Processes.RefreshShowsExit | api/processes.py:313-317 | the caller of the refresh that finds the process gone is shown the exit |
| Processes.NothingRunsAfterReaping | api/processes.py:231-253 | after the reap no write but a new start makes the session run anything |
| SessionProcesses.DestroyedRunsNothing | api/sessions.py:253-264 | in every serial run a DESTROYED session whose hook did not raise has no running process, and never again has one |
| SessionProcesses.DestroyLeavesNoProcessIff | api/sessions.py:257-264 | a destroy leaves no running process if and only if the hook ran for a session with a container id, or there was none |
| Processes.SigtermThenSigkill | api/processes.py:319-328 | SIGTERM always, SIGKILL if and only if every poll found the process alive |
| Processes.ReadExitCode | api/processes.py:295-311 | the first parseable exit file within five attempts |
| Processes.FirstCodeIs | api/processes.py:295-311 | the code is that of the first attempt that can be read, and there is none only if none can |
| Processes.ExitFileRoundTrip | api/processes.py:304-308 | the code that was written is the code that is read, whatever its sign and the blanks around it |
| Processes.OnlyNumeralsAreRead | api/processes.py:304-308 | nothing but a numeral between blanks is taken for a code |

## Left out

- HTTP, FastAPI, MCP, authentication, tenants, tokens, metrics and logging: wiring without a hard invariant.
- Real Docker, SQLite, sockets, threads and files: an abstract world, with each call's ending a parameter. A container and a volume are identified by their session's id; `normalize_workspace_perms` is not modelled: it only logs its own failures.
- Resource limits: whether they are valid is a parameter of `create`; their values only configure the container.
- Audit records written by the lifecycle operations: `precheck` is a parameter of each operation, and the emit and the final `get` after the lock is released are not modelled.
- Reads that change nothing (`get` and list endpoints, log tailing, stats, the sampler): they would only add easy members.
- SessionRuns.RunKeepsCap: states the cap for serial runs; TenantCap.CreatesKeepCapIff has the rest.
- TenantCap.CreatesKeepCapIff: startup reconciliation, which runs before requests are served, and the guarded updates of a live row that keep it live are not steps of this model.
- Processes.SerialRunKeepsCap: states the cap for serial runs; StartsKeepCapIff has overlapping ones.
- SessionLocks.LockMakesLifecycleSafe: assumes succeeding Docker calls and sessions whose create has returned, because a failed removal leaves something behind (DestroyLeavesNothingIff).
- Cancellation of a lifecycle request at an await is not modelled: its Docker call would go on in a thread while the lock is released.
- SessionLocks.LockedOperationsAreSerializable: any waiter may acquire a free lock, so it covers more orders than the first-come order of asyncio locks; the lock that guards the lock map is taken as making `_lock_for` atomic.
- Recovery.CrashRecovery: the registry commit and each Docker removal are atomic steps.
- Recovery.CreateCrash: the create's own calls succeed up to the crash, and its rollback is not interrupted.
- The destroy hook is left out of the lifecycle's own steps: it changes process rows only and its exceptions are swallowed. SessionProcesses has it.
- SessionProcesses.DestroyedRunsNothing: serial runs; a start that overlaps a destroy can insert its row after the hook.
- Idempotency.KeyIsServedOnce: requests without a key, without a tenant or with a non-mutating method bypass the cache and are not modelled; a body is text, and reading it never fails.
- Idempotency.IdempotencyMiddleware.Dispatch: the handler runs between two steps, so its return and its exceptions are events of their own.
- Audit.EveryRecordIsAccountedFor: a write to the primary file is all or nothing; the order of calls is the order in which they take the emitter's lock.
- Reapers.Reaper.Tick: the audit maintenance that opens the tick is Audit.AuditEmitter.MaintenanceTick, and the gauge refresh that ends it is left out.
- OrphanReaper.Tick: an audit write that raises after a removal is not modelled, nor are the skip counters.
- OrphanSafety.RestoreIsSafeIffOwnersKept: a restored table holds no rows the current one lacks, as a backup does not while rows are never deleted.
- OrphanSafety.SweepsNeverTakeWhatCreateMade: other lifecycle operations do not appear, because none deletes a session row, which DestructionIsFinal states.
- Output.RunStream: bytes stay bytes (base64, UTF-8 decoding, durations and the sync endpoint's timeout error are not modelled), and the queue between producer and loop is the sequence of events.
- `_exec_with_stdin`: the same collecting loop over frames that carry one stream each.
- Shell.RoundTripIffNulFree: strings are sequences of characters rather than bytes, and reading stops where an expansion, a double quote, a pattern, a brace or a comment would start outside single quotes.
- Shell.ExportLineSetsValue: for names of plain characters, which is what the shell accepts as a name.
- The rest of the supervisor script, which uses double quotes and `$` expansions that are not part of this model.
- Paths.NormalizedIsWalk: `posixpath.normpath` is modelled from its documented behaviour, since its source is not part of this repository; symbolic links are not resolved, as the source says itself.
- Processes.ExitFileRoundTrip: digits are ASCII digits; other digits that Python accepts are not modelled.
- Processes.ProcessService.Stop: the audit precheck and the session lookup that come first, in start and delete too, are not modelled.
- Processes.ProcessService.Start: the resume of a stopped session is the one in `Sessions.dfy`, so its result is a parameter here.
- Processes.ProcessService.MaybeRefresh: one call is one step here; what other tasks write between its awaits is covered by FirstMarkDecides.
