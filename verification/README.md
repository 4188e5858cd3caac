# The control plane's endpoint lifecycle, in Dafny

The control plane turns suspended Postgres endpoints into running computes and back. An endpoint is
one database row and one pod with its configmap. Any number of `Wake` calls, a suspend sweep, debug
stops, delete handlers, creations, failing calls and a cluster that loses pods all act on them
concurrently. This project models that behaviour and proves what does and does not hold of it, over
every interleaving.

## How it is laid out

| file | what it holds |
|---|---|
| `lifecycle.dfy` | the transition system: rows, pods, configmaps, a clock, threads with program positions; one step per SQL statement or API call, which succeeds, fails without effect, or takes effect with its reply lost |
| `singleflight.dfy`, `takeover.dfy`, `object_order.dfy` | ownership of an endpoint over whole runs: exact condition, the state machine, takeovers, order of pod and configmap |
| `overlap.dfy`, `hazards.dfy`, `witnesses.dfy` | runs in which the promises fail, and how exactly |
| `reachable.dfy` | what runs from the empty system reach |
| `every_run.dfy`, `told.dfy`, `refresh.dfy`, `returned.dfy` | what holds in every run without exclusions: rows, what computes are told, how configmaps are refreshed, where addresses come from |
| `stopping.dfy`, `idleness.dfy` | stops in their order; which computes a sweep spares |
| `convergence.dfy`, `starts.dfy`, `restart.dfy` | how often N wakes start an endpoint, and exactly when they start it again |
| `recovery.dfy` | two lone wakes recover from anything |
| `waker.dfy` | `Wake` as a class with loops, over a world that others change between any two calls; each method is proved to take exactly the steps of the transition system, so the theorems apply to it |
| `database.dfy`, `store.dfy` | the tables with their constraints and cascades; the store as a class |
| `cluster.dfy`, `runtime.dfy` | named objects; `Start`, `Stop`, `Status` as a class |
| `suspender.dfy` | the sweep as a class over store and runtime |
| `catalog.dfy`, `provisioning.dfy` | the branch tree; create and delete handlers as interleaved, failing, interruptible sequences over catalog and pageserver, whose timelines remember where they were cut and how far they are ingested |
| `accounts.dfy`, `leftovers.dfy` | storage without rows and rows without storage: exactly which steps make them, and what is left at rest |
| `creation.dfy` | a run that creates a project and a branch of it |
| `handlers.dfy` | `createProject`, `createBranch`, `deleteBranch`, `deleteProject` as methods over a world that others change between any two calls; proved to take only steps of `provisioning.dfy` |
| `api.dfy` | `deleteBranch` and `deleteProject` with the computes they stop, and the pageserver's `DeleteTimeline` poll, as classes |
| `lsn.dfy`, `safekeeper.dfy`, `branchpoint.dfy`, `address.dfy` | LSN parsing, the maximum over safekeepers, the wait for ingestion, names and addresses |

## What turned out false, and what holds instead

- "Exactly once, no matter how many connections race" (internal/wake/wake.go:1-3) is not true of the
  code. `SingleFlight.OwnershipKeptExactly` says of every step in every state whether ownership
  stays exclusive: it does if and only if the step is not a takeover of an owned row, not the
  sweep's repair or debugStop over an owned row, and not a `SetEndpointRunning` that takes effect
  while its caller is told it failed (the caller then stops the pod of a row that says `running`).
  `SingleFlight.FirstOverlapIsADisplacement` puts one of these writes before the first overlap of
  any run.
- Takeovers alone do not give a single owner: the compare-and-swap `starting -> starting` succeeds
  twice. `Overlap.OneCrashTwoStarts` is a run from the empty system with one crash in which two live
  owners both start the endpoint; `Takeover.SafeTakeoverTheorem` needs one decision at a time.
- "Concurrent callers converge on a single start" (internal/wake/wake.go:54) is not true of the code even
  when every call succeeds and nothing crashes, is taken over, swept or lost: `waitReady` takes the word
  of compute_ctl (internal/wake/wake.go:172-185), `Wake` that of Kubernetes (internal/wake/wake.go:97).
  `Restart.TwoWakersTwoStarts` is a run with two starts. `Starts.StartsFollowRepairs` counts: one
  start more than the repairs that hit the running row. `Restart.StartsAgainExactly`: a running endpoint
  can be started again if and only if its pod is not yet Running or a waker stands at its repair.
  `Starts.WakersConverge` is the corollary for a compute_ctl that answers after Kubernetes.
- The prefix test on addresses (internal/wake/wake.go:97) accepts a pod with another IP under
  IPv6. `Address.NamesPodExactly` gives the exact condition for all strings,
  `Address.PrefixTestAcceptsAnotherIp` an input.
- A lone `Wake` can fail although all its calls succeed, because `Start` accepts an existing pod.
  `Recovery.LoneWakeFailsExactly`: it fails if and only if there is a dead pod and the row is neither
  `starting` nor `suspending` (from those the takeover stops the pod first). The failed call removes
  the pod, so the next one succeeds. `Witnesses.DeadPodFailsACall` is a run.
- The deadline of `Wake` outlasts the stale limit by 30 seconds. `Witnesses.DefaultBudgetIsExact` counts
  local steps (the deadline test, waking up after a wait) and calls apart: on a row abandoned just before,
  a lone call can time out if and only if a local step may take 14.75 seconds, however slow the calls; on
  a running row whose pod is gone, if and only if two local steps and three calls may take 150 seconds.
- `createProject` orphans its tenant when the timeline creation fails (internal/api/api.go:146-150);
  `Accounts.TenantsOrphanedExactly` and `Accounts.TimelinesOrphanedExactly` say of every step whether
  it orphans storage, `Accounts.FailedTimelineOrphansTenant` is a run.
- Rows can be without storage: `Accounts.LostInsertHollowsProject` is a run in which the compensation
  of `createProject` deletes the tenant of a project that was saved; `Accounts.ProjectsHollowedExactly`
  and `Accounts.BranchesHollowedExactly` give the condition for every step. Every deletion makes its row
  hollow for an instant; `Leftovers.NoneHollowAtRest` says that none is left at rest unless a delete
  handler was lost or failed after the storage was gone, or an insert or a deletion lost its reply.
- The sweep's repair can suspend a row under its live owner, and a lost reply of `SetEndpointRunning`
  leaves a running row without a pod: `Hazards.RepairOverwritesOwner`, `Hazards.LostReplyLeavesNoPod`.

- A compute that has just started can be suspended: `sweepOne` judges by the row of the listing, which
  may be older than the start (internal/suspend/suspend.go:56-91). `Idleness.FreshStartsAreSpared`: a
  sweep that lists the row after the start leaves it alone until its threshold has passed.
  `Idleness.OldListingSuspends`: from every running row started long ago whose pod is lost, a run in
  which the sweep suspends the restarted compute at the instant of its start.

## Conventions

Times are in milliseconds and the database and the program read one clock. A SQL statement is atomic.
Error texts are reduced to kinds. States are a datatype, so the branch for an unknown state, which
the CHECK constraint of the table excludes, does not appear. A ghost `hist` holds the first version of every
catalog row ever inserted; creations use ids that are not in it. Each call of a waker takes at least
one unit of time, which is what makes its loops end.

## Model

| member | source | states |
|---|---|---|
| SingleFlight.OwnershipKeptExactly | internal/wake/wake.go:104-166 | every step of every thread keeps "at most one owner per endpoint, and the row is in the owner's state" if and only if it is not a displacing write |
| SingleFlight.SingleFlightTheorem | internal/wake/wake.go:1-3 | in every run of any number of wakers, sweeps, debug stops, deletes and creations without takeover, overwriting write and lost running reply, ownership is exclusive at every instant |
| SingleFlight.FirstOverlapIsADisplacement | internal/state/store.go:202-222 | in any run at all, the first loss of exclusive ownership is preceded by a displacing write that met exclusive ownership |
| SingleFlight.RunsFollowTheMachine | internal/state/store.go:1-5 | in every run under those hypotheses: every change of every row's state is an edge of the documented machine or a waker's repair running -> suspended, new rows are suspended, and the unconditional SetEndpointRunning only takes effect on a row in starting |
| SingleFlight.ChangesOffTheMachineHaveCauses | internal/state/store.go:211-222 | in any run at all, a state change off the documented machine is made by a hazardous write or comes after a displacing one |
| Takeover.SafeTakeoverTheorem | internal/wake/wake.go:116-127 | if live owners are at most staleAfter old and one waker at a time holds a takeover decision, no takeover ever meets a live owner and ownership stays exclusive, wherever owners crash |
| Takeover.TakeoverMeetsNoOwner | internal/wake/wake.go:70-75 | in a state that keeps the invariant, a takeover that hits finds the endpoint without owner |
| Takeover.StepStaysSafe | internal/wake/wake.go:19-21 | one step keeps exclusive ownership, the owner's timestamp on the row, and vacancy under a pending takeover decision |
| Takeover.TwoTakeoversOverlap | internal/wake/wake.go:117-118 | from every state with a stale starting row there is a run at whose end two wakers own the endpoint |
| Overlap.TakeoversStartTwice | internal/wake/wake.go:116-125 | from there both go on to call Runtime.Start: the count grows by two |
| Overlap.OneCrashTwoStarts | internal/wake/wake.go:1-3 | a run from the empty system: a project is created, its first waker crashes after winning the row, two more take it over, both own it and call Runtime.Start |
| ObjectOrder.RuntimeCallsAreExclusive | internal/compute/k8s.go:43-79 | with exclusive ownership no two threads are inside Start or Stop of one endpoint |
| ObjectOrder.PodsAlwaysHaveConfigs | internal/compute/k8s.go:153-161 | with exclusive ownership and no foreign stop, at every instant and crash point a pod exists only with its configmap |
| ObjectOrder.SingleFlightOrdersObjects | internal/wake/wake.go:141-147 | the same from the single-flight hypotheses alone |
| EveryRun.RunningRowsAreComplete | internal/suspend/suspend.go:76-91 | in every run running rows have an address and a start time, so the sweep never holds a row with a nil one |
| EveryRun.OnePrimaryPerTimeline | cmd/controlplane/main.go:102-124 | in every run all specs built for an endpoint are equal, and computes told the same timeline belong to one endpoint and one pod name |
| EveryRun.TimelinesDiffer | internal/state/schema.sql:11-32 | two endpoints whose specs name one timeline are the same endpoint |
| EveryRun.StepKeepsSpecs | cmd/controlplane/main.go:103-114 | the three separate reads of the spec builder, with anything happening between them, only ever produce the endpoint's one spec |
| Told.RunningPodsAreTold | cmd/controlplane/main.go:102-124 | in every run a pod that runs has been told the timeline of its endpoint's own branch, and tenant, role and verifier of that branch's project |
| Refresh.NoWriteIsLost | internal/compute/k8s.go:60-72 | in every run, a refresh of an existing configmap changes it, or is taken for done, only if it is still the very object read before, whatever others wrote in between; then it carries the waker's spec |
| Starts.StartsFollowRepairs | internal/wake/wake.go:53-56 | from suspended or failed, N wakes under every interleaving of succeeding calls: at every instant the starts are the repairs that hit the running row, and one more once the row runs again or its owner has come so far; one owner at most; every address returned is the one pod's |
| Starts.WakersConverge | internal/wake/wake.go:53-56 | where compute_ctl says running only once Kubernetes does: Runtime.Start is called at most once, exactly once after any address is returned, and all return the running pod's address |
| Restart.StartsAgainExactly | internal/wake/wake.go:97-103 | from a running endpoint some run of succeeding calls starts it again if and only if its pod is not yet Running or a waker stands at its repair |
| Restart.StartsAgainInRuns | internal/wake/wake.go:172-185 | this holds at every instant of every such run at which the row is running |
| Restart.TwoWakersTwoStarts | internal/wake/wake.go:53-55 | from a suspended endpoint without objects, a run of two wakers in which every call succeeds, no time passes and nothing crashes or fails, with two starts |
| Hazards.RepairOverwritesOwner | internal/suspend/suspend.go:71-75 | from every running row whose pod is lost, a run in which the sweep suspends the row under a live owner |
| Hazards.LostReplyLeavesNoPod | internal/wake/wake.go:162-165 | a run of one waker and one lost reply, that of SetEndpointRunning, after which the row is running and has no pod |
| Convergence.OwnerProgresses | internal/wake/wake.go:140-166 | with succeeding calls an owner advances towards a served endpoint, its start counted once |
| Returned.ReturnedAddressesAreVouched | internal/wake/wake.go:63-98 | an address returned was stored in the running row at an instant inside the call, and either the storing step was this call's own or the pod was Running at it at a later instant of the call; it has the form ip:55433 |
| Returned.AddressMoves | internal/wake/wake.go:157-165 | a step that makes a waker hold or return an address found it stored, matched it against the pod, or stored it |
| Recovery.DefaultBudget | internal/wake/wake.go:57-58 | what the assumed budget comes to with the default settings, for each kind of row |
| Witnesses.DefaultBudgetIsExact | internal/wake/wake.go:57-58 | with default settings some lone call of succeeding calls ends without the endpoint in service if and only if: local steps may take 14.75 seconds (row abandoned just before), two of them and three calls 150 seconds (running, pod gone), the first deadline test 150 seconds (at rest) |
| Witnesses.SlowStepsTimeOut | internal/wake/wake.go:70-75 | the run for an abandoned row: the last look comes just before the row turns stale, and the next deadline test is too late |
| Witnesses.SlowCallsTimeOut | internal/wake/wake.go:88-103 | the run for a running row: read, look at the pod and repair leave no time for another pass |
| Recovery.LoneWakeEndsWell | internal/wake/wake.go:56-137 | from any row and any pod, a finished lone call with succeeding calls has either put the endpoint in service at the returned address or met a dead pod on a row neither starting nor suspending, removed it and left failed |
| Recovery.LoneWakeFailsExactly | internal/wake/wake.go:104-127 | such a call, the dead pod not vanishing by itself, fails if and only if there was a dead pod and the row was neither starting nor suspending; otherwise it succeeds |
| Recovery.BlockedCallsFail | internal/compute/k8s.go:73-77 | with a dead pod on such a row no call ever returns an address, whatever the settings: Start accepts the pod that is there |
| Witnesses.DeadPodFailsACall | internal/wake/wake.go:140-147 | from every suspended row with a dead pod there is a lone call with succeeding calls that fails, stops the pod and leaves failed |
| Reachability.RunsStayPlain | internal/state/store.go:200-222 | in every run whose pods get IPs without colons, rows carry timestamps of the past and well-formed addresses without colons in the IP |
| Reachability.ReachableInRuns | internal/state/schema.sql:22-32 | so every row that a run from the empty system reaches meets what recovery assumes of rows |
| Reachability.EmptyMeetsAll | internal/state/schema.sql:1-32 | the empty system meets the initial conditions of all theorems about runs |
| Recovery.TwoWakesRecover | internal/wake/wake.go:70-134 | two successive lone calls end with the row running at the live pod's address, which the second returns |
| Recovery.WakeMoveRecovers | internal/wake/wake.go:39-44 | no step of the loop lets the deadline pass while the row is abandoned, suspended, failed or wrongly running |
| Waking.Waker.Wake | internal/wake/wake.go:56-137 | whatever others do between its calls, the loop ends, takes only steps of the transition system, returns what its thread's position says, and its address is vouched for and ends in :55433 |
| Waking.Waker.Loop | internal/wake/wake.go:57-58 | the deadline loop ends in a finished position that carries the result |
| Waking.Waker.Pass | internal/wake/wake.go:59-134 | one pass from the read of the row ends finished with its result or back at the deadline test |
| Waking.Waker.ReadEndpoint | internal/wake/wake.go:63-85 | returns the row met at its instant; the next position is the decision on that row at that time; a missing row ends the call |
| Waking.Waker.VerifyRunning | internal/wake/wake.go:88-103 | returns the stored address only when the pod's status matches it, else reconciles and goes round |
| Waking.Waker.TryStart | internal/wake/wake.go:104-115 | the swaps from suspended, then failed: the winner starts, a loser goes round, an error ends the call |
| Waking.Waker.TryTakeover | internal/wake/wake.go:116-127 | the swaps from starting, then suspending: the winner stops what is there, then starts |
| Waking.Waker.StartCompute | internal/wake/wake.go:139-166 | ends finished with an address ip:55433 under which the row met, unless deleted, has become running, with start, last activity and update now and the threshold kept; or with nothing after the failure path |
| Waking.Waker.SetEndpointRunning | internal/state/store.go:211-216 | on success the row met is running at ip:55433, started, active and updated now, branch and threshold kept; a deleted row stays away |
| Waking.Waker.Abort | internal/wake/wake.go:141-147 | the failure path stops the compute and swaps starting for failed, whatever fails in it |
| Waking.Waker.WaitReady | internal/wake/wake.go:168-197 | the loop ends at the deadline, on a cancelled request, or on the answer of compute_ctl, which decides between storing the address asked and failing |
| Waking.Waker.BuildSpec | cmd/controlplane/main.go:102-124 | the spec assembled from what the three reads returned is the one Runtime.Start is called with; any error leads to the failure path |
| Waking.Waker.ReadAccess | cmd/controlplane/main.go:103-106 | the project and branch the join returned at its instant are those read next |
| Waking.Waker.ReadProject | cmd/controlplane/main.go:107-110 | the project as it was at its instant goes into the spec, or the failure path follows |
| Waking.Waker.ReadBranch | cmd/controlplane/main.go:111-114 | the branch's timeline as it was at its instant completes the spec |
| Waking.Waker.Start | internal/compute/k8s.go:43-79 | configmap created or refreshed at the version seen, then the pod; success starts the ready timeout |
| Storage.Store.TransitionEndpoint | internal/state/store.go:200-209 | true if and only if the row existed in state from; then only state and timestamp of that row changed, address included untouched; else nothing |
| Storage.Store.SetEndpointRunning | internal/state/store.go:211-216 | unconditional: the row running at this address, started, active and updated now, its branch and threshold kept; other rows unchanged, no row no effect |
| Storage.Store.SetEndpointSuspended | internal/state/store.go:218-222 | unconditional: row suspended with null address, other rows unchanged, no row no effect |
| Storage.Store.CreateProject | internal/state/store.go:71-106 | succeeds if and only if the statement gets through, project and tenant are new and the branch fits; then all three rows, the endpoint on the branch and in the state asked for, suspended and with 300 seconds by default, never started; else nothing; keys and references hold afterwards |
| Storage.Store.CreateBranch | internal/state/store.go:82-106 | succeeds if and only if the statement gets through, ids and name are free, project and parent exist and nobody serves the branch; then both rows, the endpoint as asked for; else nothing; keys and references hold afterwards |
| Storage.Store.GetAccessControl | internal/state/store.go:185-198 | under the foreign keys the join finds exactly the existing endpoints, with its own branch and that branch's project |
| Storage.Store.GetEndpointByBranch | internal/state/store.go:164-166 | finds an endpoint of the branch exactly when there is one |
| Storage.Store.ListEndpointsByState | internal/state/store.go:168-183 | exactly the rows in that state, each once |
| Storage.Store.ListBranchesByProject | internal/state/store.go:130-146 | exactly the branches of the project, each once |
| Storage.Store.DeleteProject | internal/state/store.go:230-233 | the cascade: the project, its branches and their endpoints go, everything else stays, and no reference dangles |
| Storage.Store.DeleteBranch | internal/state/store.go:235-238 | the cascade: the branch and its endpoints go, children lose their parent, everything else stays |
| Database.InsertProjectKeepsSchema | internal/state/store.go:71-80 | inserting a project with its rows keeps foreign keys and uniqueness |
| Database.InsertBranchKeepsSchema | internal/state/store.go:88-106 | the checks made on insertion are enough for foreign keys and uniqueness |
| Database.RemoveBranchKeepsSchema | internal/state/schema.sql:11-32 | deleting a branch leaves no dangling endpoint or parent |
| Database.RemoveProjectKeepsSchema | internal/state/schema.sql:11-20 | deleting a project leaves no dangling branch, endpoint or parent |
| Database.JoinFindsEveryEndpoint | internal/state/store.go:187-192 | the three-way join is total on existing endpoints |
| Runtime.K8sRuntime.Start | internal/compute/k8s.go:43-79 | succeeds exactly when the calls it makes do; success leaves the configmap with this spec and a pod, an existing one kept; the configmap is written exactly when no call before it fails, a new pod comes only after it; no other endpoint's object changes |
| Runtime.K8sRuntime.Stop | internal/compute/k8s.go:153-161 | success means both objects are absent; whatever fails, the configmap never goes before the pod |
| Suspending.Suspender.Sweep | internal/suspend/suspend.go:51-64 | rows that were not running are untouched; every listed row ends in exactly one of three outcomes: with a pod it is left as it was if it was active less than its threshold ago, and suspended if not and no call fails; a faultless sweep leaves no running row with missing pod or reached idle threshold |
| Suspending.Suspender.SweepOne | internal/suspend/suspend.go:66-118 | by the activity reported, or else the start time: less than suspendAfter seconds ago, row, pod and configmap stay and no terminate request goes out; otherwise, with succeeding calls, the row ends suspended without pod; in general which of the outcomes, from status, address, activity, clock, swap and stop; exactly when the sweep has won the endpoint its compute is asked to terminate |
| Suspending.FoundIdleExactly | internal/suspend/suspend.go:80-97 | a sweep goes on to suspend if and only if the activity reported, or the start time where none was seen yet, is at least suspendAfter seconds ago |
| Suspending.OneOutcome | internal/suspend/suspend.go:66-118 | what a sweep finds and how its calls go leave one row, pod and configmap only |
| Suspending.TerminateDoesNotMatter | internal/suspend/suspend.go:108-113 | row, pod and configmap end up equal whether or not the terminate request succeeds |
| Lifecycle.FetchDecides | internal/suspend/suspend.go:80-97 | the same of the interleaved sweep: its swap is reached if and only if that holds of the row it has listed and what it has been told |
| Idleness.FreshStartsAreSpared | internal/suspend/suspend.go:84-97 | in every run, a sweep that listed the row after it was set running and hears of no activity leaves the endpoint alone for suspendAfter seconds from that instant, whoever acts meanwhile |
| Idleness.RunningIsStored | internal/state/store.go:211-216 | the step that sets a row running stores start, activity, update and address ip:55433, and keeps branch and threshold |
| Idleness.OldListingSuspends | internal/suspend/suspend.go:51-64 | from every running row started long enough ago whose pod is lost, a run in which a sweep lists it, a waker starts it again, and at that instant the sweep suspends it |
| Stopping.StopsComeFirst | internal/suspend/suspend.go:113-117 | in every run, a thread about to write `suspended` after a sweep or for debugStop, or to delete the configmap, has since its beginning seen its endpoint without pod, and for the write also without configmap |
| Stopping.IdleSweepStops | internal/suspend/suspend.go:66-118 | an undisturbed sweep of an idle endpoint ends with the row suspended and neither pod nor configmap, whatever becomes of the terminate request |
| Stopping.DebugStopStops | internal/api/api.go:488-500 | debugStop with succeeding calls, from every state: the row, if there is one, suspended without address, and no objects |
| Stopping.FailureStops | internal/wake/wake.go:141-147 | a failed start with succeeding stops leaves no objects, and failed in place of starting but no other state overwritten |
| Stopping.TakeoverClears | internal/wake/wake.go:116-125 | a takeover removes the pod and configmap of the owner before, and keeps the row |
| Provisioning.HandlersKeepTheBooks | internal/api/api.go:141-440 | in every run of interleaved, failing and interrupted create and delete handlers: storage is accounted for, each project has one default branch, each branch an endpoint and a parent in its project or none, no branch descends from itself, each branch's timeline was cut from the timeline of the parent it was created under and at most at the position that had been ingested, and deleted projects have left neither rows nor storage |
| Provisioning.StepKeepsGood | internal/api/api.go:228-440 | every single call of every handler keeps all of this |
| Provisioning.StepKeepsOrigins | internal/api/api.go:293-303 | the ancestry of timelines on the pageserver is the parenthood of branches in the catalog |
| Provisioning.ActConserves | internal/api/api.go:293-312 | a handler's step keeps every tenant and timeline accounted for by a row, a handler or what a handler gave up |
| Provisioning.OthersSparePlans | internal/api/api.go:122-150 | no step of another handler takes away the tenant or timeline of a project being created |
| Accounts.TenantsOrphanedExactly | internal/api/api.go:141-170 | for every step of every reachable state: a tenant on the pageserver comes to have neither row nor handler if and only if its handler is lost before the row, its attach loses its reply, its first timeline fails in any way, or its compensation fails without a row |
| Accounts.TimelinesOrphanedExactly | internal/api/api.go:293-312 | the same for timelines: lost handler, lost reply of the creation, or failed compensation, without a row |
| Accounts.OrphansHaveCauses | internal/api/api.go:162-170 | in any run, what is orphaned in the end was orphaned by one of these steps |
| Accounts.NothingIsOrphaned | internal/api/api.go:304-309 | a run from nothing without such steps, once all handlers have ended, leaves no tenant or timeline without its row |
| Accounts.FailedTimelineOrphansTenant | internal/api/api.go:146-150 | the run: the first timeline fails, nobody crashes, no compensation is tried, and the tenant is orphaned |
| Accounts.ProjectsHollowedExactly | internal/api/api.go:430-438 | for every step of every reachable state: a project's row loses its tenant if and only if the step deletes that tenant, in deleteProject or in a compensation after an insert whose reply was lost |
| Accounts.BranchesHollowedExactly | internal/api/api.go:394-402 | for every step: a branch's row comes to be without timeline if and only if the step deletes the timeline or its tenant, or inserts the row after the timeline has gone |
| Accounts.RowsHaveStorage | internal/api/api.go:394-438 | every row has its storage at every instant of a run if and only if no step of the run is one of these |
| Leftovers.HollowRowsExactly | internal/api/api.go:361-440 | at every instant of a run from nothing, the existing rows without storage are exactly those from which an earlier step took it: nothing gives it back |
| Leftovers.NoneHollowAtRest | internal/api/api.go:394-438 | at rest, after a run without a lost or failed deletion between storage and row and without a lost reply to a deletion or insert, every row has its storage, whatever else failed or raced |
| Leftovers.LateBranchGoes | internal/api/api.go:293-303 | a branch saved after deleteProject took its timeline belongs to a project whose row is about to go |
| Accounts.LostInsertHollowsProject | internal/api/api.go:161-167 | the run: the insert takes effect, its reply is lost, and the compensation deletes the tenant of a project that exists |
| Provisioning.DeletingErases | internal/api/api.go:430-438 | whenever a handler is about to delete the project's row in a reachable state, its tenant, timelines and branches are gone afterwards, also those of a branch being created meanwhile |
| Provisioning.ErasedStays | internal/api/api.go:293-312 | no later step of anybody brings back a deleted project's tenant, timelines or branches |
| Provisioning.PristineIsGood | internal/state/schema.sql:1-32 | the empty catalog and pageserver satisfy the invariant |
| Handling.Handlers.CreateProject | internal/api/api.go:111-170 | while others act between its calls: success means rows, attached tenant and timeline all exist, the endpoint suspended, never started and with the threshold asked for, 300 seconds where none was; after an error the tenant is gone or a known leak; if no call fails it succeeds |
| Handling.Handlers.CreateBranch | internal/api/api.go:228-312 | success means the rows exist under the requested parent or the project's default branch, and the timeline was created on that parent's timeline at exactly the position returned, the first highest reported, with all up to there; after an error the timeline is gone or a known leak; if no call fails and nobody else acts, it succeeds if and only if the project exists, the name is free, the parent is in the project with its timeline and a position is reported - or it times out after 30 seconds with the parent still behind |
| Handling.Handlers.WaitAncestorIngested | internal/api/api.go:329-359 | success returns the commit position with the handler about to cut there; no usable report is an error; a time-out comes only after 30 seconds, with a reported position still not ingested; if no call fails there is no other error |
| Handling.Handlers.Round | internal/api/api.go:338-352 | one round compares the texts of the two positions: caught up, behind and in time, or broken; timed out only when the ancestor is still behind after the deadline |
| Handling.Handlers.MakeBranch | internal/api/api.go:293-312 | the timeline existed, cut from the ancestor at the position given, and the rows follow or the timeline is given up; if no call fails it succeeds exactly when the ancestor is there, project and parent exist and the name is free |
| Handling.Handlers.ResolveParent | internal/api/api.go:249-277 | succeeds if and only if the call does and, at its instant, the parent asked for is a branch of the project, or none was asked for and the project has a default branch; the ancestor is that branch; otherwise the request ends without storage |
| Handling.Handlers.FindDefault | internal/api/api.go:267-276 | finds the project's default branch exactly when it has one |
| Handling.Handlers.DeleteBranch | internal/api/api.go:361-404 | success means that the branch was of the project named, not the default one, and that row and timeline are gone, whatever others did; if no call fails and nobody else acts, it succeeds if and only if the branch is of the project and not its default one |
| Handling.Handlers.DeleteProject | internal/api/api.go:406-440 | success means that neither rows nor tenant nor timelines of the project are left, whoever was creating branches in it; if no call fails and nobody else acts, it succeeds if and only if the project exists |
| Handling.PlannedStorage | internal/api/api.go:279-297 | storage under the ids of an unfinished creation is held by it or leaked; no row and no other handler has those ids |
| Handling.ProjectAlwaysFits | internal/api/api.go:152-160 | in every reachable state the rows of a createProject are accepted: its insert can only fail as a call |
| Handling.BranchFitsIfRoom | internal/api/api.go:299-303 | those of a createBranch are accepted if and only if project and parent exist and the name is free in the project |
| Creation.ProjectThenBranch | internal/api/api.go:111-312 | a run from nothing that creates a project and then a branch under its main branch as requested parent, and leaves exactly their rows and timelines |
| Lifecycle.ExecMakes | internal/state/store.go:71-106 | the rows of a creation, field by field |
| Catalog.InsertProjectKeepsTree | internal/api/api.go:156-160 | a new project has one default branch, an endpoint, and leaves the others' trees alone |
| Catalog.InsertBranchKeepsTree | internal/api/api.go:299-303 | a branch under a parent of its project keeps the tree invariant, its rank above its parent's |
| Catalog.RemoveBranchKeepsTree | internal/api/api.go:372-381 | deleting a branch that is not the default one keeps the tree invariant |
| Catalog.RemoveProjectKeepsTree | internal/state/schema.sql:11-20 | deleting a project keeps every other project's tree |
| Catalog.NoBranchIsItsOwnAncestor | internal/state/schema.sql:16-16 | no number of parent steps leads a branch back to itself, and ancestors are in its project |
| Api.Server.DeleteBranch | internal/api/api.go:361-404 | a failed attempt changes no row; the row goes only when the timeline is absent; an attempt without failures, but for the stop of the compute, removes timeline and rows, and pod and configmap if the stop goes through; nothing of other branches is touched |
| Api.Server.DeleteProject | internal/api/api.go:406-440 | a failed attempt changes no row; success means rows and timelines of the project are gone, and pods and configmaps where the stops went through; other projects keep everything |
| Api.Server.StopComputes | internal/api/api.go:418-429 | the loop stops every compute of the project that can be found and stopped, goes on after errors, and touches no other |
| Api.PageserverClient.DeleteTenant | internal/neonclient/pageserver.go:150-152 | unless the call fails without effect no timeline of the tenant is left; every other timeline stays |
| Api.PageserverClient.DeleteTimeline | internal/neonclient/pageserver.go:118-148 | succeeds if and only if the pageserver knows no such timeline, or accepts the request and a poll within 60 seconds finds it gone before a poll fails or the request is cancelled; success means the timeline does not exist |
| Safekeeper.MaxCommitLsn | internal/neonclient/safekeeper.go:25-52 | fails exactly when no usable position was reported, else returns the first report of the highest one |
| Safekeeper.HighestIsUnique | internal/neonclient/safekeeper.go:25-27 | the value found is a function of the set of reported positions, and their maximum |
| Safekeeper.OrderDoesNotMatter | internal/neonclient/safekeeper.go:33-47 | permuting the safekeepers leaves the reported positions as they are |
| Safekeeper.FailedMemberDoesNotMatter | internal/neonclient/safekeeper.go:35-43 | a member without usable answer changes nothing, wherever it stands |
| BranchPoint.CaughtUpExactly | internal/api/api.go:343-349 | comparing the two texts compares the positions, for every ingested position and every report that parses |
| Lsn.ParseExactly | internal/lsn/lsn.go:11-26 | for every string: success exactly on two non-empty hexadecimal halves below 2^32 around a slash, and a value below 2^64 |
| Lsn.ParseAccepts | internal/lsn/lsn.go:13-24 | two strings around the first slash are accepted exactly when both are hexadecimal halves below 2^32 |
| Lsn.OnlyHexIsAccepted | internal/lsn/lsn.go:13-24 | what parses has one slash, and every other character is one of the 22 hexadecimal digits, listed |
| Lsn.EightDigitsAreAccepted | internal/lsn/lsn.go:17-24 | any two halves of one to eight of these digits parse |
| Lsn.CaseDoesNotMatter | internal/lsn/lsn.go:17-24 | strings that differ only in the case of their digits parse to the same position |
| Lsn.ParseValue | internal/lsn/lsn.go:25-25 | the value is high * 2^32 + low |
| Lsn.ShiftOrGlues | internal/lsn/lsn.go:25-25 | shift-and-or of the halves is that sum, without overflow |
| Lsn.ParseUint32Exactly | internal/lsn/lsn.go:17-24 | 32-bit hexadecimal parsing accepts exactly the strings whose value fits, with that value |
| Lsn.DigitsExactly | internal/lsn/lsn.go:17-24 | a digit is one of 0123456789abcdefABCDEF, with a value below 16 |
| Lsn.ListedDigits | internal/lsn/lsn.go:17-24 | the values of these 22 digits |
| Lsn.AtLeastIsLexicographic | internal/lsn/lsn.go:28-39 | the comparison is the lexicographic order of the halves |
| Lsn.FormatRoundTrip | internal/lsn/lsn.go:1-2 | parsing the canonical upper-case form of any 64-bit value returns the value |
| Address.IpOfStoredAddress | internal/suspend/suspend.go:30-35 | the sweep gets back the pod IP from a stored address, for every string as IP |
| Address.NamesPodExactly | internal/wake/wake.go:93-97 | for all strings the prefix test holds if and only if the IPs are equal or the stored one continues the current one after a colon |
| Address.NamesPodIffSameIp | internal/wake/wake.go:97-97 | for IPs without colon the prefix test is equality |
| Address.PrefixTestAcceptsAnotherIp | internal/wake/wake.go:97-97 | two different IPv6 addresses that the test takes for one |
| Address.NamesAreInjective | internal/compute/k8s.go:40-41 | pod and configmap names determine the endpoint |
| Cluster.OtherEndpointsKeepTheirObjects | internal/compute/k8s.go:48-75 | writing one endpoint's objects changes no other endpoint's |
| Lifecycle.RepliesDoNotMatter | internal/state/store.go:200-222 | a call whose reply is lost leaves the same row and objects as one that succeeds, and a failed one leaves them alone, at every position of every thread |
| Provisioning.RepliesDoNotMatter | internal/api/api.go:141-440 | the same of the handlers' calls on catalog and pageserver |
| Lifecycle.ActedCells | internal/state/store.go:202-222 | a thread's step changes its own endpoint's row and objects and nobody else's |

## Left out

- SQL lost replies in the classes: `Store`, `Suspender` and `Api.Server` have calls that fail without effect (the Kubernetes calls also with effect); lost database replies are in the transition systems `Lifecycle` and `Provisioning`.
- Suspending.Suspender.Sweep: one sweep by itself; sweeps interleaved with everything else are threads of `Lifecycle`.
- Handling.Handlers.DeleteBranch, Handling.Handlers.DeleteProject: stopping the computes is in `Api.Server` only, with one attempt at a time; under interleaving it is the `Purge` thread of `Lifecycle`.
- Recovery.LoneWakeEndsWell, Recovery.LoneWakeFailsExactly: what answers running is the running pod the waker saw, dead pods (those from before a chosen time) do not come back, and pod IPs have no colons.
- Storage.Store.ListBranchesByProject: not the order by `created_at`, which no handler depends on since the default branch is unique.
- `getProject` and `usage`, which only read.
- `SetEndpointSuspendAfter`, which nothing calls; the int4 width of the threshold.
- Kubernetes' graceful termination: a deleted pod is gone at once; a pod takes its configuration when it gets its address.
- Pageserver, safekeeper, compute_ctl: environment steps or parameters; a timeline is created only under an attached tenant, deleting a tenant takes its timelines along, and `last_record_lsn` never goes back and is reported as it is or garbled.
- Handling.Handlers.CreateBranch, Handling.Handlers.DeleteBranch, Handling.Handlers.DeleteProject: that they succeed is promised of requests during which nobody else writes; under interference the outcome is settled call by call (`Handling.Handlers.ResolveParent`, `Handling.BranchFitsIfRoom`).
- Orphan pods from a wake that races a delete: delete handlers take no ownership; `Api.Server.DeleteBranch` is about attempts without a concurrent wake.
- The retry loop of the migration, the sweep ticker, HTTP routing, JSON, authentication, SCRAM, random ids, pod fields, certificates and the proxy's contract.
