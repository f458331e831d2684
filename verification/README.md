# Protocol proofs for the orchestrator

A durable orchestrator for coding agents stands on a handful of small protocols that have to survive crashes,
restarts and concurrency. This project models them in Dafny and proves what they keep over all runs. Each protocol is
a state, a step for every piece of code between two awaits (or for every transaction), an invariant, and theorems
about all sequences of steps; crashes and restarts are steps too. Beside it stands the code in its own form: a class
with the fields of the original, whose methods change them in place and are proved to do exactly what the step says,
or a method with the original's loop. What a step does is stated once more on its own, by its effect: the members whose
names end in "Means" say of each step what changes, when, and what stays.

Verify everything with `dafny verify dfyconfig.toml`.

| file | protocol | source |
|---|---|---|
| Scheduler.dfy | admission under five limits: FIFO queue, asynchronous pressure hooks, aborts, wake timer | src/concurrency-scheduler.ts |
| PermitLedger.dfy | one scheduler permit per run that may be executing, moved between holders across awaits | src/concurrency-limited-agent-adapter.ts |
| WriterLease.dfy | fenced writer leases: generations, compare-and-set transactions, event log, schema migrations | src/storage.ts |
| WriterSafety.dfy | the same leases under several server instances, process evidence and stolen locks | src/workspace-safety.ts |
| WorkerLifecycle.dfy | sessions: cancellation, deadlines, results, launch events, delivery flags | src/store.ts, src/lifecycle-service.ts |
| SupersetLaunch.dfy | write-ahead intents for a provider that cannot be asked what it started | src/superset-local-mcp-adapter.ts |
| LaunchIntent.dfy | launch intents on an idempotent backend | src/launch-coordinator.ts, src/store.ts |
| LaunchDispatch.dfy | dispatching an accepted assignment across crashes | src/launch-service.ts, src/store.ts |
| DagSchedule.dfy | cycle search, topological order and parallel frontiers of the typed graphs | ir/schema.py |
| CallGraphs.dfy | validation, cycle search and ordering of call graphs | src/call-validator.ts, src/call-executor.ts |
| CallReplay.dfy | resolving references, recording and replaying a run | src/call-executor.ts |
| JsonDiff.dfy | the difference of two JSON values, with paths as in RFC 6901 | src/experiment-registry.ts |
| AuditChain.dfy | the hash-chained log of security decisions | src/store.ts |
| Common.dfy, Json.dfy | shared vocabulary | |

## How the code is modelled

- Identifiers, tokens, timestamps and results are numbers or strings of which only equality, or order in time,
  matters. New ids, tokens, tickets and run ids are fresh numbers. Clocks and everything the outside answers
  (providers, hooks, the sandbox, the process table, whether a write landed) are parameters of the steps.
- In the scheduler one clock reading serves a whole segment; an error or time-out of a pressure hook is a refusal
  with the retry delay the code uses; the promises handed out and the release closures are kept as history, and so is
  the serial number of every permit.
- In the permit ledger the backend is part of the state: it accepts a key at any time after the launch call, never
  forgets one, and what a lookup answers is what it had accepted at that moment. The theorems say where they need it
  to give different runs to different keys; the exact condition for losing a permit needs no such assumption.
- The lease tables are one value; a transaction is a function on it. `releasing` exists only inside the release
  transaction. Events keep lease, generation and kind; a history of issued generations, which no table keeps, is added.
- `WriterSafety` lets every instance read, probe and write at any time and asks for no operating-system lock, so
  nothing proved there depends on the lock. A pid with its start token never comes back, a probe is true when it is
  made, and one process is bound per generation, as the comment of `bindWriterProcess` says. Migrations may run between
  any two transactions, and older builds write to the table while it is rolled back.
- A worker is kept together with the assignment accepted for it and that assignment's launch events. The schema
  check before every write is part of each operation, because some operations rely on it: it is what refuses a result
  while a cancellation is pending, a second launch event with the same id, and an execution-started event without a
  run. The type of terminal statuses includes an unknown outcome, `isTerminal` does not; the model follows the
  latter, as the operations do.
- The service model of `WorkerLifecycle` takes it that claims are made only for workers with a run, as both callers
  do; that a worker with an assignment gets its run only from the launch that is recorded; and that launch events are
  named after their kind. Clearing a cancellation and reporting an unknown outcome, which the service never does, are
  steps unless a call is in flight for a worker that is being cancelled; what happens then is a theorem of its own. A
  stop call that timed out but has not settled is still owned.
- The recursion that orders a call graph has no guard of its own, so its stack is bounded by a number of frames; without
  room for another one it throws, as it does for a node that does not exist.
- `LaunchDispatch` lets several dispatchers work on one assignment, so nothing there depends on the dispatch lock. Each
  starts from a listing of the pending assignments that it may have taken long before. The backend accepts a key at
  most once, at any time after a launch call went out.
- `SupersetLaunch` takes the lock to be exclusive while a file is written; it may be lost while a process waits for
  the provider, which the next check then notices. Replacing the file is atomic but may be reported as failed
  although it landed. A call whose outcome is unknown may create its session at any later time.
- In the difference of two JSON values an object is the list of its fields in their order, and two values have one text
  exactly if they are equal; sorting lists each key once. The call graphs never look at key order, so there an object
  is a map.
- Hashes and the message authentication code are functions passed in, taken as injective only where a theorem says so.

## Model

| member | source | states |
|---|---|---|
| `Scheduler.RunInv` | src/concurrency-scheduler.ts:119-311 | Every sequence of calls, releases, aborts, timer firings and hook answers keeps the invariant: tickets, order, distinct ids, release closures, limits, reservation of the awaited admission, queue depth, no lost wake-up |
| `Scheduler.QueueAdmissionsRespectLimits` | src/concurrency-scheduler.ts:190-236 | Permits admitted from the queue never exceed any of the five limits in any scope, although releases and `acquireExisting` run between the check and the activation |
| `Scheduler.QueueStaysBounded` | src/concurrency-scheduler.ts:134-162 | The queue holds at most max(1, maxQueued) requests and no id is waiting twice, active twice or both |
| `Scheduler.TotalsRespectLimits` | src/concurrency-scheduler.ts:280-311 | Without permits for existing executions the limits bound everything that is active |
| `Scheduler.TotalsExactly` | src/concurrency-scheduler.ts:164-231 | From totals within every limit, a segment takes one past its limit if and only if it takes a permit for an existing execution on a full scope, or admits after the hooks a request that has become blocked |
| `Scheduler.RunTotalsExactly` | src/concurrency-scheduler.ts:164-231 | A history stays within every limit throughout if and only if it has no such segment |
| `Scheduler.LimitCanBeOvershot` | src/concurrency-scheduler.ts:164-171 | A run in which `acquireExisting` during the hook await pushes the total over the global limit |
| `Scheduler.NobodyIsStranded` | src/concurrency-scheduler.ts:190-278 | Whenever no drain is running and the queue is non-empty, its head is blocked by a limit or the wake timer is armed |
| `Scheduler.NoOvertaking` | src/concurrency-scheduler.ts:190-231 | When a later request has been admitted every earlier one is settled, and an earlier admission has the older permit |
| `Scheduler.StepExtends` | src/concurrency-scheduler.ts:302-311 | One segment settles nothing twice, and the only permit it takes away is the one whose own unused closure is called |
| `Scheduler.SettlesOnce` | src/concurrency-scheduler.ts:119-162 | What an `acquire` settled to never changes over the rest of a run |
| `Scheduler.DrainLoopMeans` | src/concurrency-scheduler.ts:190-236 | A drain admits requests from the front in order, each with the next permit, and stops only at an empty queue, a blocked head, a head put off with the timer armed, or a head whose hooks are asked |
| `Scheduler.ReleaseMeans` | src/concurrency-scheduler.ts:302-311 | After a release the closure is used, no active permit has its number, every other permit is still active and the queue has been drained |
| `Scheduler.ReleaseAdmitsHead` | src/concurrency-scheduler.ts:302-311 | The head for which a release makes room is admitted in the same segment, or its hooks are asked |
| `Scheduler.RefusalMeans` | src/concurrency-scheduler.ts:119-134 | Which requests are refused at once and why: malformed, aborted, id in use, or unable to go ahead under a rejecting policy or a full queue |
| `Scheduler.AcquireMeans` | src/concurrency-scheduler.ts:136-162 | A request that is not refused is queued last and the queue drained; if nothing stands in its way it is admitted at once |
| `Scheduler.AcquireExistingMeans` | src/concurrency-scheduler.ts:164-171 | A permit for an existing execution is taken whatever the limits, unless the id is in use, and nothing else changes |
| `Scheduler.AbortMeans` | src/concurrency-scheduler.ts:148-160 | An aborted request is settled cancelled and out of the queue; nobody else leaves it except by admission |
| `Scheduler.TimerMeans` | src/concurrency-scheduler.ts:265-278 | The timer drains the queue unless that is under way, and is armed again only for a head that is put off |
| `Scheduler.ResumeMeans` | src/concurrency-scheduler.ts:205-231 | A ready head is admitted; one that is not ready is refused when the policy rejects or has no queue, and otherwise put off by its delay of at least one with the timer armed |
| `Scheduler.HooksDecide` | src/concurrency-scheduler.ts:200-231 | With hooks installed nobody is admitted from the queue unless they said so of that request |
| `Scheduler.ConcurrencyScheduler.LimitsBlocking` | src/concurrency-scheduler.ts:280-288 | The limits reported as blocking are those that are full, in the reported order |
| `Scheduler.ConcurrencyScheduler.RefusalOf` | src/concurrency-scheduler.ts:119-147 | Which requests are refused at once, and why |
| `Scheduler.ConcurrencyScheduler.Acquire` | src/concurrency-scheduler.ts:119-162 | Refines the admission step and returns the refusal or the new ticket |
| `Scheduler.ConcurrencyScheduler.Loop` | src/concurrency-scheduler.ts:190-236 | The loop of `drain` up to its await equals its specification for every queue and clock |
| `Scheduler.ConcurrencyScheduler.Release` | src/concurrency-scheduler.ts:302-311 | A closure used once frees its own permit and no other, for good; unless a drain is under way the queue is drained to where it has a reason to stop, and the head that now fits is admitted; a second call changes nothing |
| `Scheduler.ConcurrencyScheduler.OnAbort` | src/concurrency-scheduler.ts:148-160 | An aborted request leaves the queue cancelled and the others are reconsidered |
| `Scheduler.ConcurrencyScheduler.Resume` | src/concurrency-scheduler.ts:205-236 | The same with the invariant kept |
| `PermitLedger.KeysAreIndependent` | src/concurrency-limited-agent-adapter.ts:41-188 | With a backend that maps keys injectively to runs the whole adapter behaves, for each key, as a small machine of that key alone |
| `PermitLedger.RunInv` | src/concurrency-limited-agent-adapter.ts:41-188 | The ledger invariant holds in every interleaving at the awaits while the backend is injective |
| `PermitLedger.EveryPermitHasOneHolder` | src/concurrency-limited-agent-adapter.ts:41-75 | Every permit counted for a key has exactly one holder, and every holder holds the permit that is counted |
| `PermitLedger.OnlyEvidenceEndsAPermit` | src/concurrency-limited-agent-adapter.ts:106-188 | A permit and a binding survive every step that is not terminal or negative evidence about the same key |
| `PermitLedger.BoundRunStaysCounted` | src/concurrency-limited-agent-adapter.ts:77-96 | Over any stretch of a run without such evidence a bound run keeps its permit and stays bound |
| `PermitLedger.RecoveredRunNotYetTerminal` | src/concurrency-limited-agent-adapter.ts:155-160 | The early-release branch for a run already observed terminal cannot be reached |
| `PermitLedger.AdmissionMeans` | src/concurrency-limited-agent-adapter.ts:53-57 | An admitted launch counts a new permit; none is admitted while the key is counted |
| `PermitLedger.LaunchMeans` | src/concurrency-limited-agent-adapter.ts:58-71 | When the backend answers, the run is bound with the permit; if the run is held already the permit is kept as unresolved |
| `PermitLedger.LaunchFailureMeans` | src/concurrency-limited-agent-adapter.ts:72-75 | A launch that throws keeps its permit as unresolved |
| `PermitLedger.RecoveryStartMeans` | src/concurrency-limited-agent-adapter.ts:106-115 | A recovery reserves a permit exactly when nothing of the key is kept, and fails when its id is in use |
| `PermitLedger.LookupMeans` | src/concurrency-limited-agent-adapter.ts:116-117 | The lookup answers what the backend had accepted for the key |
| `PermitLedger.LookupFailureMeans` | src/concurrency-limited-agent-adapter.ts:116-122 | If the lookup fails, a reserved permit waits for the next recovery |
| `PermitLedger.NothingFoundMeans` | src/concurrency-limited-agent-adapter.ts:118-125 | When the backend knows no run, nothing of the key is counted, kept or bound any more |
| `PermitLedger.RunFoundMeans` | src/concurrency-limited-agent-adapter.ts:126-166 | A run that nobody holds is bound with the permit kept or reserved and its status asked; a permit reserved in vain is given back |
| `PermitLedger.TerminalMeans` | src/concurrency-limited-agent-adapter.ts:77-96 | A terminal observation unbinds whoever holds the run and frees that permit and no other |
| `PermitLedger.InspectionMeans` | src/concurrency-limited-agent-adapter.ts:168-177 | So does a terminal status asked by a recovery; any other status leaves the permit bound |
| `PermitLedger.PermitComesBack` | src/concurrency-limited-agent-adapter.ts:53-96 | A launch that nothing disturbs takes a permit, holds it while its run lasts and gives it back |
| `PermitLedger.SharedRunInv` | src/concurrency-limited-agent-adapter.ts:41-188 | Whatever the backend does, also when it gives one run to several keys, a counted permit is kept in at most one place, every binding is held for its own key, and suspended recoveries remember what is there |
| `PermitLedger.PermitLostExactlyOnConflict` | src/concurrency-limited-agent-adapter.ts:124-135 | With any backend a key is counted and its permit kept nowhere after a step if and only if it was so before, or the step resumes the recovery of an unresolved launch whose run is held for another key |
| `PermitLedger.LostPermitsExactly` | src/concurrency-limited-agent-adapter.ts:124-135 | Over a history the permit of a key is lost if and only if that happened to it; it is never found again |
| `PermitLedger.ConflictIsReachable` | src/concurrency-limited-agent-adapter.ts:124-135 | A backend that gives one run to two keys reaches that loss |
| `PermitLedger.ConcurrencyLimitedAgentAdapter.LaunchReturns` | src/concurrency-limited-agent-adapter.ts:58-71 | The part of `launch` after the backend answered refines its step |
| `PermitLedger.ConcurrencyLimitedAgentAdapter.StartRecovery` | src/concurrency-limited-agent-adapter.ts:106-115 | `recover` up to its lookup refines its step, including which permit it reserves |
| `PermitLedger.ConcurrencyLimitedAgentAdapter.RecoveryFinds` | src/concurrency-limited-agent-adapter.ts:126-166 | Every branch of `recover` after a run was found refines its step |
| `PermitLedger.ConcurrencyLimitedAgentAdapter.InspectionResumes` | src/concurrency-limited-agent-adapter.ts:168-177 | What the status of a recovered run does to its permit |
| `WriterLease.StepInv` | src/storage.ts:480-746 | Every transaction and every migration keeps the table invariant |
| `WriterLease.GenerationsIncrease` | src/storage.ts:504-518 | Generations of a workspace strictly increase in the order they are handed out, through cleanup, rollback and migration |
| `WriterLease.OneAuthority` | src/storage.ts:549-618 | Two authorities of one workspace that can both act are the same |
| `WriterLease.FencedForever` | src/storage.ts:569-618 | An authority that could act once and cannot any more fails every later check, whatever happens in between |
| `WriterLease.UseRetires` | src/storage.ts:549-618 | Binding, renewing or releasing with an authority retires that copy of it |
| `WriterLease.RollbackRetires` | src/storage.ts:143-186 | Rolling the fencing schema back retires every authority there is, also after migrating again |
| `WriterLease.LogReconstructs` | src/storage.ts:504-691 | Replaying the events of a lease gives its generation, state and row version, and no committed row is `releasing` |
| `WriterLease.ClosedOnce` | src/storage.ts:599-691 | A legal life is closed exactly once, at its end |
| `WriterLease.ClosedOrLost` | src/storage.ts:504-691 | Whenever a workspace can be acquired, each lease of it in the log was closed by exactly one release, evidenced recovery or repair, unless its row was released by an older build or dropped with the old table; then by none |
| `WriterLease.ClosedBetweenAcquisitions` | src/storage.ts:143-186 | Between two acquisitions in any epochs the earlier lease was closed by exactly one event if and only if it was not lost in one of these two ways; within one epoch none is lost |
| `WriterLease.LeasesCanBeLost` | src/storage.ts:143-186 | Both ways are open: the workspace is acquired again and no event closed the first lease |
| `WriterLease.GrantedCanAct` | src/storage.ts:504-535 | An authority that is handed out can act |
| `WriterLease.ReleaseFrees` | src/storage.ts:599-618 | After a release by the current authority the workspace is free |
| `WriterLease.AcquireMeans` | src/storage.ts:480-535 | An acquisition is refused exactly while a writer of the workspace is not released, and otherwise adds one active row with the next generation and one event |
| `WriterLease.OwnerUpdatesMean` | src/storage.ts:549-586 | Binding records the process and renewing moves the expiry, for the authority that can act and, in the second case, has not expired; nothing else changes |
| `WriterLease.ReleaseMeans` | src/storage.ts:599-623 | The release of an authority that can act retires its lease: released now, one event, the workspace free, all other rows as they were |
| `WriterLease.RecoverMeans` | src/storage.ts:625-648 | A recovery retires the lease exactly when it was seen active and expired, is unchanged since and its owner is known to be absent |
| `WriterLease.QuarantineMeans` | src/storage.ts:650-667 | Quarantine freezes exactly the open lease that was seen and releases nothing |
| `WriterLease.RepairMeans` | src/storage.ts:669-691 | A repair retires the lease exactly when it is quarantined as it was seen and its owner is known to be absent |
| `WriterLease.CleanupMeans` | src/storage.ts:720-746 | Retention deletes exactly the leases released before the cutoff and the reader leases that expired before now |
| `WriterLease.RollbackMeans` | src/storage.ts:143-186 | A roll-back keeps what the older schema knows of every lease, drops tables below it, and keeps the generations |
| `WriterLease.MigrationMeans` | src/storage.ts:143-186 | The migration back quarantines exactly the leases that were not released, without token or process |
| `WriterLease.OlderBuildsMean` | src/storage.ts:143-186 | What older builds insert and release while the table is rolled back |
| `WriterLease.ReaderMeans` | src/repositories.ts:42-52 | A reader lease never blocks and gets no token |
| `WriterLease.OrchestratorStorage.AcquireWriterLease` | src/storage.ts:480-535 | Refines the acquisition transaction: refused while any unreleased writer blocks |
| `WriterLease.OrchestratorStorage.ReleaseWriterLease` | src/storage.ts:599-623 | Refines the two-step release within one transaction |
| `WriterLease.OrchestratorStorage.RecoverExpiredWriterLease` | src/storage.ts:625-648 | Succeeds exactly for a lease seen active and expired and unchanged since, with proof of absence, and then retires it |
| `WriterLease.OrchestratorStorage.CleanupLeases` | src/storage.ts:720-746 | Deletes only expired reader rows and old released ones, over all rows in turn |
| `WriterLease.OrchestratorStorage.RollBackOne` | src/storage.ts:454-465 | Refines the roll-back of one schema version |
| `WriterSafety.RunInv` | src/workspace-safety.ts:105-253 | The invariant over server instances, processes, probes, leases and migrations holds on every run |
| `WriterSafety.NoSecondWriterWhileAlive` | src/workspace-safety.ts:142-253 | No newer writer generation exists while a process bound to an earlier one is alive, with crashes, expiry, stolen locks and migrations, unless the lease was lost in a roll-back |
| `WriterSafety.OpenExactlyUnlessLost` | src/storage.ts:143-186 | While a bound process is alive its lease is open if and only if no older build released it and the old table was not dropped with it |
| `WriterSafety.LostLeaseAdmitsSecond` | src/storage.ts:143-186 | A lease that an older build releases in a roll-back lets a second writer in while the process runs |
| `WriterSafety.AliveOwnerKeepsWorkspace` | src/workspace-safety.ts:105-134 | While a bound process is alive and its lease not lost, nobody is granted its workspace, and no older build acquires it |
| `WriterSafety.AbsentIsTrue` | src/workspace-safety.ts:246-254 | Whenever the owner is found absent the recorded process instance is gone, even if its pid is in use again |
| `WriterSafety.OwnerProcessMeans` | src/workspace-safety.ts:246-254 | Exactly when an owner is absent, alive or unverifiable |
| `WriterSafety.DeadOwnerIsRetired` | src/workspace-safety.ts:169-240 | Once the recorded process has exited, reading, probing and recovering retires an expired lease, and a repair a quarantined one |
| `WriterSafety.TakenAndBound` | src/workspace-safety.ts:105-150 | On a free workspace a lease is granted and the process that was started is bound to it |
| `WriterSafety.GivenBack` | src/workspace-safety.ts:152-167 | An authority whose process has exited, or that has none, gives its lease back |
| `WriterSafety.WorkspaceSafetyTool.AcquireWriter` | src/workspace-safety.ts:105-134 | Takes the lock, then the lease; drops the lock if the lease is refused |
| `WriterSafety.WorkspaceSafetyTool.ReleaseWriter` | src/workspace-safety.ts:152-167 | Releases the lease only once the bound process is known to be gone, or none was bound |
| `WriterSafety.WorkspaceSafetyTool.RecoverWorkspace` | src/workspace-safety.ts:169-207 | Retires an expired lease with proof of absence, quarantines an uncertain one, answers stale when the row has changed, leaves the others |
| `WriterSafety.WorkspaceSafetyTool.RepairQuarantine` | src/workspace-safety.ts:209-240 | Repairs exactly with the lock and proof that the recorded process is gone, and then the lease is released, its event logged and its workspace free |
| `WorkerLifecycle.TerminalIsFinal` | src/store.ts:674-1082 | No sequence of store operations changes status, stop reason or completion time of a succeeded, failed or canceled worker |
| `WorkerLifecycle.LaunchesMoveForward` | src/store.ts:1351-1453 | Assignments only move forward, runs are bound once, the launch log only grows, and exactly the launched assignments have an execution-started event with their run |
| `WorkerLifecycle.EarlyBranchRegresses` | src/store.ts:1363-1383 | The branch for a launch whose worker has finished sets the assignment to failed exactly when the event id it is given is new |
| `WorkerLifecycle.ForeignIdRegresses` | src/store.ts:1363-1383 | With an event id of its own a caller takes a launched assignment back to failed |
| `WorkerLifecycle.RunInv` | src/lifecycle-service.ts:173-346 | The invariant of a worker, its delivery flags and the stop calls in flight holds on every run of the service |
| `WorkerLifecycle.OneStopInFlight` | src/store.ts:749-863 | At most one of the four delivery flags is set, and at most one stop call is owned at any time |
| `WorkerLifecycle.RetractExactly` | src/store.ts:869-883 | Clearing a cancellation, or reporting the worker as lost, keeps the invariant unless a call is in flight for a worker that is being cancelled; then it never does, and a second call can start at once |
| `WorkerLifecycle.NoSecondCall` | src/lifecycle-service.ts:483-490 | While a stop call is owned, also one that timed out and has not settled, no claim can be taken |
| `WorkerLifecycle.DeadlineLeavesStop` | src/store.ts:971-992 | A deadline that fires on a worker with a run bound or being launched leaves a stop to be made on record |
| `WorkerLifecycle.OwedUntilDischarged` | src/store.ts:760-863 | That stop stays on record through every operation and restart until it is delivered or refused as unsupported, the launch fails or the provider is seen terminal |
| `WorkerLifecycle.RestartRecoversOwedStops` | src/store.ts:833-863 | After a restart an owed stop is pending, and once a run is bound the next sweep finds it and can claim it |
| `WorkerLifecycle.ResultAccepted` | src/store.ts:1006-1028 | A result is written if and only if the stop reason on record fits the new status |
| `WorkerLifecycle.ResultRefusedWhileCanceling` | src/store.ts:1006-1028 | So a result for a worker that is being cancelled is always refused |
| `WorkerLifecycle.UnsupportedCancellation` | src/store.ts:796-813 | Request, claim and refusal as unsupported restore the worker, except that an earlier stop reason is lost |
| `WorkerLifecycle.SweepMeans` | src/store.ts:1051-1056 | The start-up sweep loses exactly the running workers without a live process and touches nothing else |
| `WorkerLifecycle.RequestMeans` | src/store.ts:710-741 | A cancellation ends an open worker that was not started at once, and otherwise is put on record for delivery with the status it met |
| `WorkerLifecycle.ClaimsMean` | src/store.ts:749-831 | A claim takes what is pending, once; given back, the stop is pending again, as a cancellation or as a late stop |
| `WorkerLifecycle.AnswersMean` | src/store.ts:770-794 | A stop that was delivered or is unsupported is over, and recorded as such |
| `WorkerLifecycle.UnsupportedMeans` | src/store.ts:796-813 | An unsupported cancellation is taken back, unless the worker has ended meanwhile; so is a cleared one |
| `WorkerLifecycle.RecoveryMeans` | src/store.ts:833-863 | What becomes of claims at a restart: exactly which stops are pending again |
| `WorkerLifecycle.TerminalMeans` | src/store.ts:888-918 | A terminal record ends an open worker with this status, reason and result; an ended one only gains a missing result; a reason that does not suit is refused |
| `WorkerLifecycle.SettleMeans` | src/store.ts:920-964 | An observation ends a worker being canceled, adds its result to one that has ended and leaves every other alone |
| `WorkerLifecycle.ExpiryMeans` | src/store.ts:971-994 | A deadline that has passed fails an open worker, and asks for a stop of one that may be executing and was not stopped |
| `WorkerLifecycle.ResultMeans` | src/store.ts:1006-1028 | A result ends an open worker with it; an ended one accepts only the same result again |
| `WorkerLifecycle.BindingMeans` | src/store.ts:670-703 | A run and a deadline are recorded for open workers only, and another run is refused |
| `WorkerLifecycle.CaptureMeans` | src/store.ts:1507-1556 | A delivered result is captured once, for the launched run, and ends an open worker as it claims |
| `WorkerLifecycle.LaunchMeans` | src/store.ts:1385-1450 | An allowed event moves the assignment on, is kept, and gives its run to the worker; any other changes nothing |
| `WorkerLifecycle.LaunchEndsMean` | src/store.ts:1385-1450 | A launch that starts for a worker that has ended is to be stopped |
| `WorkerLifecycle.LaunchFailureMeans` | src/store.ts:1385-1450 | A launch that fails ends an open worker with its error, and no stop is owed |
| `WorkerLifecycle.LaunchRefused` | src/store.ts:1385-1450 | Exactly which launch events are refused: the wrong kind, another event under the same id, another run |
| `WorkerLifecycle.PreemptionMeans` | src/store.ts:1363-1383 | An event for a worker that has ended gives its assignment up, unless the id is known |
| `WorkerLifecycle.TakingMeans` | src/lifecycle-service.ts:483-490 | A stop that is pending for a worker with a run is called by whoever claims it |
| `WorkerLifecycle.AnsweringMeans` | src/lifecycle-service.ts:483-490 | The answer ends the call; without one the stop is pending again |
| `WorkerLifecycle.DebtMeans` | src/lifecycle-service.ts:173-346 | A deadline of a worker that may be executing is owed a stop, which crashes and restarts do not pay |
| `WorkerLifecycle.StorableMeans` | src/store.ts:270-345 | What the schema asks of a worker before it is written |
| `WorkerLifecycle.OperationMeans` | src/store.ts:1735-1744 | An operation writes the worker it wants if the schema admits it and nothing otherwise, and leaves the others alone |
| `WorkerLifecycle.Loaded.SettleCancellation` | src/store.ts:920-964 | The in-place update equals the specified one, late observations included |
| `WorkerLifecycle.Loaded.ExpireNow` | src/store.ts:971-994 | The in-place update equals the specified one; claimed exactly when overdue |
| `WorkerLifecycle.Loaded.RecordEvent` | src/store.ts:1363-1450 | Every branch of the launch event equals its specification |
| `WorkerLifecycle.DurableStore.RecoverLifecycleDeliveryClaims` | src/store.ts:840-863 | The start-up loop applies the specified recovery to every worker |
| `WorkerLifecycle.DurableStore.SettleWorkerCancellation` | src/store.ts:920-964 | One worker changes, by the specified update, if the schema admits it; claimed exactly for a canceling worker |
| `WorkerLifecycle.DurableStore.RecordWorkerResult` | src/store.ts:1006-1028 | One worker changes if the schema admits it; a repeated result is accepted, a different one refused |
| `WorkerLifecycle.DurableStore.Reconcile` | src/store.ts:1030-1080 | A worker becomes an unknown outcome, completed now, exactly when it was running and has no pid or no live process; every other worker is unchanged in every field |
| `WorkerLifecycle.DurableStore.RecordLaunchEvent` | src/store.ts:1351-1453 | One worker and assignment change by the specified update, if the schema admits it; a transition is reported exactly when one of the table was made |
| `SupersetLaunch.RunInv` | src/superset-local-mcp-adapter.ts:137-232 | The write-ahead invariant holds with crashes between any two awaits, failed or half-reported writes and lost locks |
| `SupersetLaunch.OneSessionPerKey` | src/superset-local-mcp-adapter.ts:137-232 | Over all processes and retries a key starts at most one session, counting calls whose outcome is unknown |
| `SupersetLaunch.NoSessionForgotten` | src/superset-local-mcp-adapter.ts:160-174 | A session that exists, or may still come to exist, has its key among the runs or the pending intents on disk |
| `SupersetLaunch.BindingsNeverChange` | src/superset-local-mcp-adapter.ts:211-231 | A bound run stays bound to the same session |
| `SupersetLaunch.RepliesAgree` | src/superset-local-mcp-adapter.ts:148-151 | Every handle returned for a key names the one session created for it |
| `SupersetLaunch.BlockedExactly` | src/superset-local-mcp-adapter.ts:160-210 | A step leaves a key refused although no session of it exists or can still come to exist, and nobody is at work on it, if and only if it is a withdrawal that does not land or is cut off, or a rejection that arrives when the lock is gone |
| `SupersetLaunch.BlockedKeysExactly` | src/superset-local-mcp-adapter.ts:137-232 | A key is so blocked after a history if and only if the history has such a step for it |
| `SupersetLaunch.IntentCanOutliveItsLaunch` | src/superset-local-mcp-adapter.ts:175-182 | Three events reach it: a failed intent write that landed, and whose withdrawal fails too |
| `SupersetLaunch.UnboundExactly` | src/superset-local-mcp-adapter.ts:184-231 | A step leaves a session that exists without a binding, its key refused and nobody at work on it, if and only if the provider makes it when its caller is gone, or its caller crashes, gets no usable answer, has lost the lock or fails to write the binding |
| `SupersetLaunch.UnboundSessionsExactly` | src/superset-local-mcp-adapter.ts:184-231 | Over a history that is so if and only if such a step happened to the key, and it stays so |
| `SupersetLaunch.UsableAnswerBinds` | src/superset-local-mcp-adapter.ts:211-231 | A usable answer taken with the lock held, and a write that lands, bind the session made, take the key out of the pending ones and answer it |
| `SupersetLaunch.UninterruptedLaunch` | src/superset-local-mcp-adapter.ts:137-232 | A launch that nothing disturbs creates one session, binds it and answers it |
| `SupersetLaunch.EntryMeans` | src/superset-local-mcp-adapter.ts:148-163 | A bound key is answered with its session, a pending one refused, any other entered |
| `SupersetLaunch.IntentMeans` | src/superset-local-mcp-adapter.ts:164-182 | Once the intent is written one call is made; if the write fails none is |
| `SupersetLaunch.RejectionMeans` | src/superset-local-mcp-adapter.ts:192-202 | A rejected call leads to the removal of its intent, by whoever still holds the lock |
| `SupersetLaunch.WithdrawalMeans` | src/superset-local-mcp-adapter.ts:175-182 | A withdrawal that lands frees its key and no other |
| `SupersetLaunch.SurroundingsMean` | src/superset-local-mcp-adapter.ts:137-232 | What the provider, a stale lock and a crash change |
| `SupersetLaunch.RunStateFile.Enter` | src/superset-local-mcp-adapter.ts:148-163 | Bound keys are answered, pending ones refused, others enter with the lock |
| `SupersetLaunch.RunStateFile.WriteIntent` | src/superset-local-mcp-adapter.ts:164-182 | Refines the write of the intent, in each of its three outcomes |
| `SupersetLaunch.RunStateFile.TakeAnswer` | src/superset-local-mcp-adapter.ts:184-210 | A usable answer goes on to the binding exactly while the lock is held; no answer writes the file |
| `SupersetLaunch.RunStateFile.WriteBinding` | src/superset-local-mcp-adapter.ts:211-231 | Unless the write does not land the key is bound to its session and no longer pending; a reported success answers it |
| `LaunchIntent.RunInv` | src/launch-coordinator.ts:86-173 | The intent invariant holds for concurrent coordinators with crashes and failed writes |
| `LaunchIntent.RunsBelongToOneIntent` | src/launch-coordinator.ts:86-147 | A run exists only once its intent has left `reserved`, belongs to one key, and is the one a bound intent names |
| `LaunchIntent.BindingNeverRefused` | src/launch-coordinator.ts:149-173 | Binding a run that was found or returned is a legal transition in every reachable state |
| `LaunchIntent.IntentsOnlyRise` | src/store.ts:1123-1160 | Intents are never relabelled, their status only rises and a bound run is immutable |
| `LaunchIntent.RepliesAgree` | src/launch-coordinator.ts:86-147 | Every successful launch of a key reports the same run |
| `LaunchIntent.BothMayDispatch` | src/launch-coordinator.ts:97-138 | Two coordinators can both send the launch of one key, so the single run is the backend's doing |
| `LaunchIntent.StuckExactly` | src/launch-coordinator.ts:97-138 | A step leaves a key refused for good although no launch of it was ever sent and nobody is left to send it, if and only if its last sender fails to record the dispatch although the write landed, or fails or gives up after that of another one did |
| `LaunchIntent.StuckKeysExactly` | src/launch-coordinator.ts:97-138 | Over a history a key is stuck if and only if such a step happened to it |
| `LaunchIntent.StuckKeyNeverRuns` | src/launch-coordinator.ts:97-114 | A stuck key stays so: it has no run, and every later launch of it only looks and is refused |
| `LaunchIntent.UpdateMeans` | src/store.ts:1123-1160 | An update succeeds exactly if the status rises, not from reserved straight to bound, and a bound run stays |
| `LaunchIntent.ReserveMeans` | src/store.ts:1106-1121 | A new key is reserved, a bound one answered, another request refused, every other looked up |
| `LaunchIntent.LookupMeans` | src/launch-coordinator.ts:100-114 | A run that is found is bound next; without one only a reserved intent is dispatched |
| `LaunchIntent.ReconciliationMeans` | src/launch-coordinator.ts:149-173 | A reconciliation binds a run that exists; giving up changes nothing else |
| `LaunchIntent.DispatchMeans` | src/launch-coordinator.ts:127-127 | The launch goes out exactly when `dispatching` is written, which an intent that has come further refuses |
| `LaunchIntent.AcceptanceMeans` | src/launch-coordinator.ts:127-138 | The backend accepts a key once, after its launch was sent, with a run of its own |
| `LaunchIntent.ReturnMeans` | src/launch-coordinator.ts:127-147 | A launch that returns is bound next, one that throws recorded as unknown next |
| `LaunchIntent.BindingMeans` | src/launch-coordinator.ts:201-214 | Binding writes the run and answers; a failure after a launch is recorded next |
| `LaunchIntent.FailureMeans` | src/launch-coordinator.ts:139-145 | An unknown outcome is recorded unless the run has been bound meanwhile |
| `LaunchIntent.UninterruptedLaunch` | src/launch-coordinator.ts:86-147 | A launch that nothing disturbs is reserved, dispatched once, bound and answered |
| `LaunchIntent.FoundRunIsBound` | src/launch-coordinator.ts:100-114 | A run that exists is bound and answered by the next launch of its key, without another dispatch |
| `LaunchIntent.LaunchCoordinator.Update` | src/store.ts:1123-1160 | The stored intent changes exactly by the transition table and the binding checks |
| `LaunchIntent.LaunchCoordinator.ReserveLaunch` | src/store.ts:1106-1121 | Refines the reservation: existing, conflicting, bound or new |
| `LaunchIntent.LaunchCoordinator.TakeLookup` | src/launch-coordinator.ts:100-114 | Refines the lookup and the refusal of unresolved intents |
| `LaunchIntent.LaunchCoordinator.BindRun` | src/launch-coordinator.ts:201-214 | Refines the binding |
| `LaunchDispatch.RunInv` | src/launch-service.ts:323-451 | The dispatch invariant holds for several dispatchers with crashes at every await and late acceptance by the backend |
| `LaunchDispatch.LaunchedMeansRunning` | src/launch-service.ts:440-447 | A launched assignment names the run of the backend, and no run exists without a reservation |
| `LaunchDispatch.AssignmentMovesForward` | src/launch-service.ts:323-451 | Both final statuses are final, and bound and accepted runs stay |
| `LaunchDispatch.CanceledBeforeDispatchNeverRuns` | src/store.ts:1363-1383 | A worker that finishes before its launch is reserved never runs, whatever the dispatchers do |
| `LaunchDispatch.AtStakeMeansOneWrite` | src/launch-service.ts:334-450 | A run is at stake when it is left behind a failed assignment, or one write of a dispatcher would leave it so |
| `LaunchDispatch.AtStakeExactly` | src/launch-service.ts:328-450 | A step puts a run at stake if and only if it is a garbled lookup after a failed attempt, a recovery refused its workspace or a launch reply without a handle, each while a run exists, or an acceptance while somebody gives up or after the failure |
| `LaunchDispatch.NoOrphansExactly` | src/launch-service.ts:328-450 | A history keeps every run out of danger throughout if and only if it has no such step |
| `LaunchDispatch.NoOrphans` | src/launch-service.ts:373-436 | Without such a step no run is left behind a failed assignment |
| `LaunchDispatch.FailedWithoutLooking` | src/launch-service.ts:328-358 | A recovery refused its workspace and a launch reply without a handle both record a failure without looking, and reach such a run |
| `LaunchDispatch.RecordedExactlyWhenListed` | src/store.ts:1340-1349 | With no dispatcher at work and no listing outstanding, a run whose launch was not recorded can still be recorded if and only if its assignment is listed; otherwise nothing ever changes again |
| `LaunchDispatch.UnrecordedRunReached` | src/store.ts:1340-1349 | A crash after the acceptance, followed by the end of the worker, reaches a run that is not listed |
| `LaunchDispatch.ListingMeans` | src/launch-service.ts:323-359 | Open assignments of unfinished workers are listed; how a listed one is taken up |
| `LaunchDispatch.ReservationMeans` | src/launch-service.ts:360-369 | A reservation that lands makes the assignment launching, or failed if the worker has finished |
| `LaunchDispatch.FirstLookupMeans` | src/launch-service.ts:371-380 | A run that is there is recorded, otherwise the launch is called; an error is checked |
| `LaunchDispatch.CallMeans` | src/launch-service.ts:376-387 | Where each outcome of the launch call leads |
| `LaunchDispatch.AcceptanceMeans` | src/launch-service.ts:376-386 | The backend accepts a call once, if one went out |
| `LaunchDispatch.SecondLookupMeans` | src/launch-service.ts:388-430 | After a failed attempt a run is recorded, and no run is a failure unless the provider was unavailable |
| `LaunchDispatch.OutcomeMeans` | src/launch-service.ts:440-513 | A run or a failure is recorded unless the assignment has moved on or the write does not land |
| `LaunchDispatch.UninterruptedDispatch` | src/launch-service.ts:323-451 | A dispatch that nothing disturbs launches the assignment with the run of the backend, or fails it when the provider rejects the call |
| `LaunchDispatch.LaunchService.Dispatch` | src/launch-service.ts:323-359 | `dispatch` up to its first write refines its step |
| `LaunchDispatch.LaunchService.ReserveLaunch` | src/launch-service.ts:360-369 | The reservation, given up when the worker has finished |
| `LaunchDispatch.LaunchService.FindFirst` | src/launch-service.ts:371-380 | Every answer of the first lookup refines its step |
| `LaunchDispatch.LaunchService.LaunchResolved` | src/launch-service.ts:430-437 | What a resolved launch call does, with a handle and without |
| `LaunchDispatch.LaunchService.CheckAttempt` | src/launch-service.ts:388-430 | Every way on from a failed attempt refines its step |
| `LaunchDispatch.LaunchService.RecordStarted` | src/launch-service.ts:440-447 | Refines the record of a started run |
| `DagSchedule.OrderedHasNoCycle` | ir/schema.py:140-155 | A set of nodes that can be listed after their dependencies has no cycle |
| `DagSchedule.AcyclicHasPostorder` | ir/schema.py:140-169 | Conversely, dependencies without a cycle can always be listed so |
| `DagSchedule.CycleSearch.Visit` | ir/schema.py:143-152 | The recursive search returns true only for a real cycle, and otherwise has finished everything it entered |
| `DagSchedule.CycleSearch.Search` | ir/schema.py:154-155 | Despite stopping early the search answers true if and only if the dependency relation has a cycle |
| `DagSchedule.Validate` | ir/schema.py:71-156 | A cycle is reported exactly when there is one, and nothing is reported exactly for a well-formed acyclic graph |
| `DagSchedule.KnownMeans` | ir/schema.py:85-119 | A node depends on exactly the existing nodes that it takes an argument from or repairs |
| `DagSchedule.WellFormedMeans` | ir/schema.py:71-119 | What a faultless graph is, besides cycles: ids present and distinct, nodes sound, sources and repaired nodes existing |
| `DagSchedule.OrderMeans` | ir/schema.py:158-169 | In the order returned every node stands behind its sources and the node it repairs |
| `DagSchedule.RoundMeans` | ir/schema.py:158-183 | A round is exactly who is left and waits for nobody left; a frontier with a serial node among them is the first of these in the graph's order, alone |
| `DagSchedule.ScheduleIsOrder` | ir/schema.py:175-183 | Rounds that use up the nodes and never run one before its dependencies concatenate to a topological order |
| `DagSchedule.SerialRunsAlone` | ir/schema.py:179-180 | A node that is not parallelizable is alone in its frontier |
| `DagSchedule.FrontiersAreRounds` | ir/schema.py:175-183 | Without such nodes the frontiers are exactly the rounds of the topological order |
| `DagSchedule.Dependencies` | ir/schema.py:185-191 | For a validated graph the second computation of the dependencies agrees with validation |
| `DagSchedule.TopologicalOrder` | ir/schema.py:158-169 | An order is returned exactly for a valid graph; the loop terminates and lists every node once after its dependencies |
| `DagSchedule.ParallelFrontiers` | ir/schema.py:171-183 | The loop terminates with a partition into non-empty frontiers whose concatenation is a topological order |
| `CallGraphs.CycleReport.Walk` | src/call-validator.ts:283-291 | The search stays sound after it has reported a cycle and unwound early |
| `CallGraphs.CycleReport.Report` | src/call-validator.ts:277-293 | Some node is reported if and only if the edges have a cycle |
| `CallGraphs.CheckNode` | src/call-validator.ts:122-157 | Which edges of one node validation records, and when it has no complaint |
| `CallGraphs.ValidateCallGraph` | src/call-validator.ts:64-175 | A graph is accepted if and only if ids, tools, dependencies and values fit and the edges seen have no cycle |
| `CallGraphs.RefsMean` | src/call-executor.ts:436-449 | The references collected are exactly those that stand at some position of the arguments |
| `CallGraphs.SeenMean` | src/call-validator.ts:177-275 | Validation comes across exactly the references at positions that the schema describes |
| `CallGraphs.FitsMeans` | src/call-validator.ts:177-275 | Arguments pass exactly when they fit at every position that the schema describes |
| `CallGraphs.EdgesMean` | src/call-validator.ts:122-157 | The edges of validation and of the executor, position by position |
| `CallGraphs.CoveredNeeds` | src/call-validator.ts:229-275 | Where schemas describe every position of a reference, the edges validation sees are the ones the executor follows |
| `CallGraphs.Ordering.Visit` | src/call-executor.ts:424-431 | The unguarded recursion, with a bounded stack: when it returns, the node is listed after all it needs and nothing that is still being visited is; where an order exists it returns, given enough stack |
| `CallGraphs.TopologicalOrder` | src/call-executor.ts:420-434 | Whatever is returned lists every node once, after its dependencies and references; with a frame of stack for every node an order is returned if and only if all names exist and nothing comes to need itself |
| `CallGraphs.OrderMeans` | src/call-executor.ts:420-434 | In the order every node stands behind all it depends on or refers to anywhere in its arguments |
| `CallGraphs.OrderIsPermutation` | src/call-executor.ts:420-434 | The order lists exactly the nodes of the graph, each once |
| `CallGraphs.OrderableExactly` | src/call-executor.ts:420-449 | A valid graph can be ordered if and only if all names it refers to are nodes and the needs the executor follows have no cycle |
| `CallGraphs.CoveredIsOrderable` | src/call-validator.ts:229-275 | Every valid graph whose schemas describe all its references is one of these |
| `CallGraphs.ValidButUnorderable` | src/call-executor.ts:436-449 | Two valid graphs are not: a node that needs itself and a reference to a node that does not exist, both where no schema looks |
| `CallReplay.EveryReferenceResolved` | src/call-executor.ts:451-471 | When a call runs, the outputs of everything it refers to are there |
| `CallReplay.ResolveMeans` | src/call-executor.ts:451-471 | Resolving puts, at every position of a reference, exactly the output it names, and keeps kind, length, keys and content everywhere else |
| `CallReplay.NothingToResolve` | src/call-executor.ts:451-471 | A value without references stays as it is |
| `CallReplay.InputHasOutput` | src/call-executor.ts:451-471 | Wherever a call refers to an earlier one, its input has that call's output |
| `CallReplay.RecordMeans` | src/call-executor.ts:371-388 | What a record holds: place, node, tool, output, the hashes of input and tool, and the code over them |
| `CallReplay.ReferenceIsHashed` | src/call-executor.ts:371-388 | The record of a call whose argument is a reference has the hash of the output referred to |
| `CallReplay.RunsMean` | src/call-executor.ts:137-240 | A run or replay needs every capability allowed and every output accepted, and a replay every record in place |
| `CallReplay.ReplayRepeatsTheRun` | src/call-executor.ts:371-418 | Replaying what was recorded is accepted and returns the same outputs |
| `CallReplay.OnlyTheRunReplays` | src/call-executor.ts:390-418 | With an unforgeable code, a list that only reuses recorded tags is accepted only if it is the recorded run from its start; nothing edited, dropped, repeated or reordered is |
| `CallReplay.OnlyTheTrajectoryReplays` | src/call-executor.ts:390-418 | A recording is accepted only for the same calls of the same tools on the same inputs |
| `CallReplay.OutputsDoNotDependOnOrder` | src/call-executor.ts:420-434 | For deterministic tools every admissible order gives the same outputs |
| `CallReplay.ExecuteRecording` | src/call-executor.ts:141-240 | The loop in record mode: when it succeeds, which outputs and records it returns, and that a call on a reference records the hash of the earlier output |
| `CallReplay.ExecuteReplay` | src/call-executor.ts:137-240 | The loop in replay mode accepts exactly the lists specified and returns the recorded outputs |
| `JsonDiff.EscapeRoundTrip` | src/experiment-registry.ts:98-100 | Unescaping as in section 4 of RFC 6901 gives the key back, so escaping is injective |
| `JsonDiff.RenderInjective` | src/experiment-registry.ts:115-124 | A rendered path names one path only (section 3 of RFC 6901) |
| `JsonDiff.ApplyDiff` | src/experiment-registry.ts:102-134 | Applied to the baseline, or to any value that differs from it in field order only, the reported changes give the experiment up to field order |
| `JsonDiff.DiffTells` | src/experiment-registry.ts:129-133 | Every change reports what is at its path on both sides, and no path is a prefix of another |
| `JsonDiff.DiffFinest` | src/experiment-registry.ts:107-133 | Every reported change is as deep as it can be: its sides differ and are not both objects |
| `JsonDiff.ReportedInKeyOrder` | src/experiment-registry.ts:117-126 | Changes are reported in the order of the keys |
| `JsonDiff.ReportedPathsIndependent` | src/experiment-registry.ts:115-124 | As reported, no path equals another one or leads through it |
| `JsonDiff.NothingMeansAgreement` | src/experiment-registry.ts:108-108 | Nothing is reported if and only if the values agree up to the order of the fields of objects that are not inside an array |
| `JsonDiff.OrderInsideArrayReported` | src/experiment-registry.ts:108-112 | Inside an array a different order of two fields is reported as a change |
| `JsonDiff.RegistryDiffApplies` | src/experiment-registry.ts:254-268 | The walk over the nine compared fields gives the experiment's version of each, up to field order |
| `JsonDiff.Changes.DiffValues` | src/experiment-registry.ts:102-134 | The recursion over a shared array appends exactly the specified changes, with rendered paths |
| `JsonDiff.Changes.DiffFields` | src/experiment-registry.ts:117-126 | So does the loop over keys |
| `AuditChain.AppendValid` | src/store.ts:1455-1483 | An append to a valid chain gives a valid, longer chain |
| `AuditChain.ValidMeans` | src/store.ts:1314-1331 | A log is intact exactly when its events are numbered from one, each names the hash of the one before and has its own, and the head names the last |
| `AuditChain.AppendMeans` | src/store.ts:1455-1483 | An append adds one event with the decision and moves the head to it |
| `AuditChain.WrittenValid` | src/store.ts:1300-1307 | Any series of decisions gives a valid chain that holds them all in order |
| `AuditChain.HeadDeterminesLog` | src/store.ts:211-220 | With a collision-free hash two valid logs with the same head are equal |
| `AuditChain.TamperingRejected` | src/store.ts:1314-1331 | Any edit, deletion, truncation, insertion or reordering under an unchanged head is rejected |
| `AuditChain.DroppedHead` | src/store.ts:1326-1330 | Without a head only the empty log is valid |
| `AuditChain.EditLocated` | src/store.ts:1318-1323 | One replaced event is reported at its own position or the next |
| `AuditChain.AuditLog.Verify` | src/store.ts:1314-1331 | The loop answers intact exactly for a valid log, and otherwise the first position that is broken |
| `AuditChain.AuditLog.AppendDecision` | src/store.ts:1333-1338 | Nothing is appended to a log that does not verify |

## Left out

- SQLite, file locks, permissions, inode checks and fsync: a transaction is atomic, a rename lands whole or not at all.
- Process spawning, sandboxing, stdio framing, JSON-RPC and the provider protocol: only their outcomes appear.
- Zod schemas and request validation, except the cross-record checks the store proofs rely on; redaction, path
  authorization and the `policy_denied` events of refused leases.
- Scheduler.ConcurrencyScheduler.Acquire: a refused call gets no ticket, and the queue depth and limits its error
  carries are not modelled.
- WriterLease.OrchestratorStorage.AcquireWriterLease: the process is given whole or not at all, and the audit entry of
  a refusal is not modelled.
- Quarantine reasons, heartbeat times and event payloads of leases; migrations of the other tables, backup, export and
  integrity reports.
- Stop details, request times and late observations of workers, diagnostics, and the identities other than the run
  that a captured result is compared with (one flag says whether they match).
- WorkerLifecycle.OwedUntilDischarged: about stops owed to a worker for which no stop was delivered before the
  deadline, because the code does not ask again after a delivery.
- The provider slots of the lifecycle service: a newcomer may overtake a woken waiter, so their bound does not hold.
- Waiting for batches, batch queries, cursors and indexes: their steps read the state and would add easy members.
- The dispatch timers and the dispatch lock of src/launch-service.ts (several dispatchers are let run at once), and
  acceptance, which is one write.
- The order in which sets are walked: the searches and the executor take any order, and the theorems hold for all.
- DagSchedule.Validate: issues are classified, their texts and paths are not; types, literals and tool schemas are
  one flag per node.
- CallGraphs.ValidateCallGraph: enumerations, formats and schema compatibility are parameters; `compatible` is not a
  sound subtype test, and nothing here needs it to be one. Messages, paths, warnings and sorting of diagnostics are
  not modelled.
- CallGraphs.CheckNode: which values a schema admits is a parameter.
- CallReplay.ExecuteReplay: as for the recording mode.
- CallReplay.ExecuteRecording: size limits and the audit entries of the executor are not modelled; an output is
  accepted or not by one parameter.
- Floating point and negative zero: numbers are integers. Keys that an object inherits from its prototype: a key that
  is not its own is absent.
- JsonDiff.RegistryDiffApplies: the lookups of the two records and the check that the experiment names the baseline
  come before the difference and are not modelled.
