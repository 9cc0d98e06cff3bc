# A verified model of mloperator's reconcilers

mloperator is a set of Kubernetes reconcilers. Each watches one kind of operation (Job, KfJob, Service, Dask or
Ray cluster), creates a child resource for it, and folds what it sees of the child and its pods into a short
list of conditions that decides whether the operation is done. This project models that in Dafny and proves what
the operator is relied on for: end states that are final, children that are not created twice, deadlines and
TTLs that are neither early nor forgotten, finalizers that go in order, and a control plane that is told what
was stored.

`dafny verify dfyconfig.toml` checks everything.

## How it is laid out

| module | what it holds |
|---|---|
| `Prelude` | optional values, Go's 32- and 64-bit wrap-around, saturating time differences, decimal numbers |
| `Conditions` | the condition log as a mutable object, each method tied to a function on its value |
| `ConditionHistory` | the log as a compact form of the unbounded call history |
| `Pods` | the loops over pod lists, each equal to a declarative reading of the list |
| `Verdicts`, `JobStatus`, `KfJobStatus`, `ServiceStatus`, `ClusterStatus` | the status decisions: imperative cascades proved against verdict functions |
| `Timing` | TTL, active deadline and culling in Go's int64 durations, and timed runs |
| `Protocol` | the reconcile passes as a step machine over an API server, workers and an environment |
| `Decisions` | the decisions of a pass seen together: repeating one, which are always reported, how a pass ends |
| `ProtocolSafety`, `ProtocolRuns`, `ProtocolPush`, `ProtocolDeletion`, `ProtocolStale` | invariants of the machine and the theorems about its runs |
| `ProtocolChildren`, `ProtocolPasses`, `ProtocolCleanup` | what an error-free pass does, from its first call to its last |
| `Deployments`, `Labels`, `Unstructured` | generated manifests (with the shared container array on the heap) and field copies |

## How the protocol is modelled

- The API server keeps every revision of one operation. A worker's copy remembers the revision it was loaded
  from; a write is stored only on the current one. A status write replaces the status, a metadata write the
  finalizers. A deleting object takes no new finalizers, as the API server's own validation demands.
- A pass is a sequence of API calls, one per step (`Protocol.Pc`). Between any two steps other workers may act,
  calls may fail, a write or delete may take effect while its response is lost, workers may crash, deletion may be
  requested, and other parties may edit metadata.
- What a call answers is part of the event: child present or absent, any child status, any pods, any clock
  readings (in order within one Log call), any probe answer, any stored revision for a read. A pod list that
  fails reads as an empty one in the status decisions, as in the code.
- Job, KfJob and Service runs are unrestricted: any number of workers and any stale reads. Cluster runs have
  one worker whose reads are no older than its own last write (they may lag behind edits by others and behind
  a deletion mark), since that controller reads the operation again in the middle of a pass and writes on what
  it finds; `ProtocolStale.StaleClusterPassEndsTwice` shows what goes wrong otherwise. Where a theorem about
  Jobs needs such fresh reads, it says so.
- The control flow between API calls is stated as functions from a worker and an answer to the next worker,
  because the environment acts in between; the code that runs inside one such step (logging, folds, status
  decisions, deadline and culling, manifests, field copies) is imperative with loops and objects.

## What the proofs found

- A stopped Service or cluster has no completion time, and TTL handling dereferences it
  (`ProtocolDeletion.TtlMissesExactlyStopped`). A cluster whose child was deleted gets there in its next pass
  (`ProtocolDeletion.MissingClusterPanics`). After a deadline stop the same pass deletes the operation: if that
  delete goes through, later fresh passes stay away from the TTL (`ProtocolDeletion.DeletedStaysAwayFromTtl`);
  if it fails, the next pass panics (`ProtocolDeletion.FailedDeadlineDeletePanics`). Jobs and KfJobs never do.
- The deadline check decides as asked exactly for deadlines of at most 9223372036 seconds either way
  (`Timing.DeadlineExact`); beyond that the product wraps, and up to twice as far a fresh operation expires at
  once (`Timing.HugeDeadlineExpiresAtOnce`).
- A positive culling timeout does not guarantee a wake-up: `Timing.CullMeaning` gives the exact condition.
- With a restarting KfJob child and a differing pod warning, two warnings replace each other for ever
  (`KfJobStatus.CompetingWarningsAlternate`); this is the only case in which a repeated pass changes the list.
- A repeated terminal Log call restarts its transition time; `ConditionHistory.StreakRuleExact` says exactly when
  the transition time is the start of the streak. It is also always reported as an update, so the branches for
  "not updated" behind it are dead.
- A Service, KfJob or cluster that stays Running is written and pushed again in every pass, though nothing
  changed; a Job is not (`Decisions.RunningIsReportedAgain`, `Decisions.SettledJobIsQuiet`).
- A pod warning hides a Ray replica failure (`ClusterStatus.RayFailureWaitsForPods`), unlike for Jobs.
- A Job pushes Starting to the control plane even when storing it was refused, also over a later condition that is
  stored; `ProtocolPush.JobPushesUnstoredStarting` says exactly when the two then still agree.
- With stale reads a child can be created again: exactly when the revision the pass loaded allows it
  (`ProtocolRuns.CreateFollowsLoadedRevision`, `ProtocolRuns.StalePassCreatesAgain`).
- A cluster pass that starts from an old revision can record a second end state
  (`ProtocolStale.StaleClusterPassEndsTwice`).
- Labels that are only added to a deployment are never reported as a change
  (`Deployments.AddedLabelsAreMissed`), against the comment on `CopyDeploymentFields`.
- When one requested port is missing, port completion adds all of them, repeating those already there
  (`Deployments.CompletedRepeats`).
- `GenerateDeployment` has an error for a spec without containers, but it is never reached: `GetPodPorts` indexes
  the first container earlier in the same pass and panics (`Deployments.BuildManifests`).
- `ttl == &ZeroValue` compares pointers and is never true; a zero TTL takes the timed path, and the model follows.

## Model

| member | source | states |
|---|---|---|
| `Conditions.OperationStatus.RemoveCondition` | api/v1/condition.go:195-204 | leaves exactly the entries of other types, in order |
| `Conditions.OperationStatus.LogCondition` | api/v1/condition.go:97-115 | new list and update report as functions of the old list: unchanged, same type with new text, or moved to the back |
| `Conditions.OperationStatus.LogWarning` | api/v1/condition.go:229-237 | empty reason and message get their defaults |
| `Conditions.OperationStatus.LogFinal` | internal/controller/job/job.go:112-155 | logging an end state always counts as an update, and the completion time is then stamped |
| `Conditions.OperationStatus.ShouldMarkJobAsDeleted` | api/v1/condition.go:265-287 | marks exactly an operation that is not done and whose last condition is Running or Warning |
| `Conditions.OperationStatus.MarkJobAsDeleted` | api/v1/condition.go:298-314 | records the stop (or failure) with its reason and the completion time |
| `ConditionHistory.ListRefinesHistory` | api/v1/condition.go:195-252 | after any calls the list is the call history with only the last entry of each type; types are unique and the tail is the latest call |
| `ConditionHistory.ListIsBounded` | api/v1/condition.go:195-216 | however long the history, at most six conditions |
| `ConditionHistory.TimesStaySorted` | api/v1/condition.go:97-115 | under a non-decreasing clock the list is sorted by update and by transition time |
| `ConditionHistory.TailTimes` | api/v1/condition.go:101-114 | a non-final tail has the transition time of the call that began its streak and the update time of the first identical call |
| `ConditionHistory.TerminalTailTimes` | api/v1/condition.go:97-115 | a final tail has the update time of the last call and the transition time of the last call of its streak that began it or repeated its predecessor |
| `ConditionHistory.StreakRuleExact` | api/v1/condition.go:101-114 | under a non-decreasing clock the transition time is the start of the streak exactly for a non-final tail or a streak without later repeats |
| `ConditionHistory.TerminalRepeatRestartsTransition` | api/v1/condition.go:101-108 | two identical final calls for which it is not |
| `ConditionHistory.HasLogged` | api/v1/condition.go:136-142 | after logging, exactly the logged type joins those the list has |
| `ConditionHistory.LastIsLastCall` | api/v1/condition.go:145-151 | the list ends in a type exactly when the last call logged it |
| `Pods.GetMainContainerStatus` | internal/helpers/managers/pods.go:148-164 | the status of the spec's first container, or of the first reported one |
| `Pods.IsMainContainerRunning` | internal/helpers/managers/pods.go:227-234 | true exactly when some pod's main container is running |
| `Pods.GetPodMainContainerExitStatus` | internal/helpers/managers/pods.go:166-200 | the exit that counts for one pod, which the next row reads from its fields |
| `Pods.PodExitMeaning` | internal/helpers/managers/pods.go:148-200 | a pod failed, ended well, failed more often than a limit, or runs exactly as the fields of its main container say: a current exit, or the last one behind a running or waiting container; attempts are restarts plus a current exit |
| `Pods.WorstExitMeaning` | internal/helpers/managers/pods.go:202-224 | the failure reported is that of a pod that failed most often, present exactly when some main container failed |
| `Pods.CleanExitMeaning` | internal/helpers/managers/pods.go:202-224 | a clean exit is held exactly when some main container ended well |
| `Pods.AnyMainRunningMeaning` | internal/helpers/managers/pods.go:227-234 | the scan finds exactly a main container that runs |
| `Pods.GetMainContainerExitStatus` | internal/helpers/managers/pods.go:202-224 | the accumulating loop gives the worst failure, else the first clean exit |
| `Pods.ExitReported` | internal/helpers/managers/pods.go:202-224 | that result characterised without the loop: the first failure with most attempts, else the first clean exit, else none |
| `Pods.GetInvalidImageName` | internal/helpers/managers/pods.go:241-252 | the first bad image name over pods, init containers before containers |
| `Pods.InvalidImageExists` | internal/helpers/managers/pods.go:241-252 | found exactly when some container of some pod has one |
| `Pods.HasUnschedulablePods` | internal/helpers/managers/pods.go:255-299 | the scan is the verdict of the first decisive pod |
| `Pods.ScanConcat` | internal/helpers/managers/pods.go:259-298 | the scan of a list in two parts: the first part decides if it has a decisive pod, otherwise the second |
| `Pods.ScanStarting` | internal/helpers/managers/pods.go:256-258 | Starting exactly for the empty list |
| `Pods.SucceededHidesLater` | internal/helpers/managers/pods.go:268-270 | a succeeded pod hides every later one |
| `Pods.PodHealthMeaning` | internal/helpers/managers/pods.go:260-296 | what makes one pod warn and what leaves it undecided, condition by condition |
| `Pods.ScanWarns` | internal/helpers/managers/pods.go:255-299 | the scan warns exactly when some pod warns and all before it are undecided |
| `Pods.EndedPodReports` | internal/helpers/managers/pods.go:260-270 | a failed pod reports its first bad exit, else its own message; a succeeded one nothing |
| `Pods.WarningPodReports` | internal/helpers/managers/pods.go:271-296 | the reason and message of a warning pod, in order: init images, images, readiness, placement |
| `JobStatus.ReconcileJobStatus` | internal/controller/job/job.go:103-186 | the cascade applies the verdict of the priority table and reports exactly its updates |
| `JobStatus.LogJobProgress` | internal/controller/job/job.go:157-186 | the non-final part of the cascade |
| `JobStatus.RuleForDecides` | internal/controller/job/job.go:103-186 | the row chosen is the one and only applicable row of least rank |
| `JobStatus.TerminalOutcomeIsNeverMasked` | internal/controller/job/job.go:112-155 | a finished child ends the operation whatever the pods warn about |
| `JobStatus.RunningNeedsARunningMain` | internal/controller/job/job.go:170-184 | Running exactly when a main container was seen running and no higher row applies |
| `JobStatus.JobOutcomes` | internal/controller/job/job.go:103-186 | Failed, Succeeded, Warning, Running and silence exactly when, in terms of images, pods and the child's fields |
| `JobStatus.JobEntries` | internal/controller/job/job.go:112-182 | the reason and message logged: the bad image, the pods' warning before failed attempts, or the defaults |
| `JobStatus.JobFailureReasons` | internal/controller/job/job.go:189-194 | the reason of a pod that failed most often replaces the child's exactly at the back-off limit and with a failed main container |
| `Decisions.DecisionSettles` | internal/controller/job/job.go:93-98 | for every kind, a second decision over one observation changes nothing if the first ended nothing and no KfJob warnings compete, at a later time only then; it reports an update exactly otherwise or when its verdict is always reported |
| `Decisions.SettledJobIsQuiet` | internal/controller/job/job.go:103-186 | a second Job decision reports an update exactly when the first ended the operation |
| `Decisions.ForcedExactly` | internal/controller/service/service.go:167-186 | which verdicts are reported though nothing changed: Running except for Jobs, Service warnings exactly without a pod warning, nothing of a Job, no cluster warning and no failure |
| `Decisions.KfForced` | internal/controller/kfjob/kfcommon.go:97-135 | for KfJobs: running, success, and a restart that no new pod warning displaces |
| `Decisions.RunningIsReportedAgain` | internal/controller/kfjob/kfcommon.go:97-101 | an operation that stays Running is unchanged, and reported in every pass exactly if it is not a Job |
| `Decisions.EndStepsFinish` | internal/controller/service/service.go:41-65 | the steps of the protocol end an error-free pass in the case, and with the write or delete, that the end of a pass is defined by |
| `KfJobStatus.ReconcileKfJobStatus` | internal/controller/kfjob/kfcommon.go:39-136 | the cascade, with its forced updates, its conversion error and its second Log call, applies the verdict |
| `KfJobStatus.LogTraining` | internal/controller/kfjob/kfcommon.go:95-135 | the part of the cascade that follows the last training condition |
| `KfJobStatus.KfOutcomes` | internal/controller/kfjob/kfcommon.go:39-136 | Failed, Succeeded, Running, Warning and the conversion error exactly when, in terms of images, pods, the last training condition and the list's tail |
| `KfJobStatus.KfEntries` | internal/controller/kfjob/kfcommon.go:49-135 | the reason and message logged: the bad image, the training condition's, or the pods' warning while it is new |
| `KfJobStatus.KfDecisionIdempotent` | internal/controller/kfjob/kfcommon.go:60-135 | a second pass changes nothing exactly when no two warnings compete |
| `KfJobStatus.CompetingPassSwaps` | internal/controller/kfjob/kfcommon.go:60-135 | one pass over competing warnings puts the other one at the tail |
| `KfJobStatus.CompetingWarningsAlternate` | internal/controller/kfjob/kfcommon.go:60-135 | competing warnings alternate by parity over any number of passes |
| `ServiceStatus.ReconcileDeploymentStatus` | internal/controller/service/service.go:140-187 | the cascade applies its verdict; the completion time is read after the Log call |
| `ServiceStatus.DeploymentOutcomes` | internal/controller/service/service.go:149-186 | Failed, Warning and Running exactly when, in terms of images, pods and the deployment's last condition |
| `ServiceStatus.DeploymentEntries` | internal/controller/service/service.go:149-186 | the reason and message logged: the bad image, the pods' warning before the deployment's |
| `ServiceStatus.HandleServiceContainerExit` | internal/controller/service/service.go:238-307 | the check records its verdict and is skipped without the instance label |
| `ServiceStatus.ExitVerdictMeaning` | internal/controller/service/service.go:238-306 | from the main containers' fields: fails exactly when the limit, zero by default, is not negative and some failed more often, with the reason of one that failed most; succeeds exactly with one replica, the default, none failed and some ended well |
| `ServiceStatus.ExitVerdictIgnoresOrder` | internal/helpers/managers/pods.go:202-224 | reordering the pods never changes the outcome |
| `ClusterStatus.IsDaskSchedulerRunning` | internal/controller/cluster/daskcluster.go:181-188 | true exactly when some scheduler pod's main container runs |
| `ClusterStatus.GetDaskReplicaFailure` | internal/controller/cluster/daskcluster.go:161-175 | the first replica failure over deployments and their conditions |
| `ClusterStatus.ReplicaFailureFound` | internal/controller/cluster/daskcluster.go:161-175 | found exactly when some deployment has one |
| `ClusterStatus.ReplicaFailureIsFirst` | internal/controller/cluster/daskcluster.go:161-175 | and it is the first, deployments and conditions in order |
| `ClusterStatus.ReconcileDaskClusterStatus` | internal/controller/cluster/daskcluster.go:190-304 | the cascade over phases applies the verdict |
| `ClusterStatus.DaskRunsExactly` | internal/controller/cluster/daskcluster.go:248-269 | Running exactly for the running phase with no replica failure and a scheduler seen running |
| `ClusterStatus.DaskEndsExactly` | internal/controller/cluster/daskcluster.go:190-304 | Succeeded and Failed exactly from the phase or a bad image name |
| `ClusterStatus.DaskWarnsExactly` | internal/controller/cluster/daskcluster.go:236-303 | Warning exactly from the phase, a replica failure, or pods that warn before a scheduler runs or in an unknown phase |
| `ClusterStatus.DaskEntries` | internal/controller/cluster/daskcluster.go:199-303 | the words logged where the child or the pods supply them |
| `ClusterStatus.ReconcileRayClusterStatus` | internal/controller/cluster/raycluster.go:154-239 | the cascade applies the verdict |
| `ClusterStatus.LogRayConditions` | internal/controller/cluster/raycluster.go:200-239 | the part of the cascade that reads the child's conditions |
| `ClusterStatus.GetConditionStatus` | internal/controller/cluster/rayapi/api.go:70-77 | the loop gives the status of the first condition of a type, else unknown |
| `ClusterStatus.GetReplicaFailureInfo` | internal/controller/cluster/rayapi/api.go:61-68 | the loop gives the details of the first true replica failure, else the default |
| `ClusterStatus.RayTruthMeaning` | internal/controller/cluster/rayapi/api.go:70-77 | a type counts as true exactly when its first condition is true |
| `ClusterStatus.RayFailureInfoMeaning` | internal/controller/cluster/rayapi/api.go:61-68 | the details of a failure come from the condition that asserts it |
| `ClusterStatus.RayOutcomes` | internal/controller/cluster/raycluster.go:154-239 | Failed, Running, Warning and the conversion error exactly when, in terms of images, pods and the child's conditions |
| `ClusterStatus.RayFailureWaitsForPods` | internal/controller/cluster/raycluster.go:172-225 | a replica failure ends the operation, with its own reason, exactly when the pods carry no warning |
| `ClusterStatus.RayEntries` | internal/controller/cluster/raycluster.go:164-239 | the reason and message logged: the bad image, the pods' warning, suspension, or provisioning |
| `Timing.SecondsExact` | internal/controller/service/cleanup.go:60-66 | seconds to nanoseconds is exact precisely within 9223372036 seconds either way |
| `Timing.TtlMeaning` | internal/controller/job/cleanup.go:29-49 | deletion strictly after completion + ttl; before that a non-negative wait ending exactly there unless it exceeds the longest duration, for every int32 ttl and every clock reading |
| `Timing.TtlNeedsCompletion` | internal/controller/service/cleanup.go:28-48 | the completion time is missed exactly when a TTL is set and the time is not |
| `Timing.TtlRunsEndInDelete` | internal/controller/job/cleanup.go:39-48 | passes driven by their own timer delete by the third |
| `Timing.DeadlineMeaning` | internal/controller/service/cleanup.go:51-80 | expired exactly from start + deadline on; otherwise a positive wait that ends exactly there, unless that is beyond the longest duration |
| `Timing.DeadlineExact` | internal/controller/service/cleanup.go:60-66 | expiry is right at every start and time exactly for deadlines within 9223372036 seconds either way |
| `Timing.HugeDeadlineExpiresAtOnce` | internal/controller/cluster/cleanup.go:52-81 | from there to twice as far every operation expires at once |
| `Timing.HandlePastActiveDeadline` | internal/controller/service/cleanup.go:51-80 | wait, expiry and the recorded stop as functions of the old status and the clock |
| `Timing.HandleCulling` | internal/controller/service/service.go:310-359 | the wait for the next check or the decision to delete, as a function of status, probe and clock |
| `Timing.CullMeaning` | internal/controller/service/service.go:310-359 | a check-in without wake-up exactly for a failed probe under a non-positive timeout or activity too far ahead |
| `Timing.CullExact` | internal/controller/service/service.go:310-359 | culled exactly when the last activity lies at least the timeout back; checked again exactly when not or after a failed probe, one timeout after the activity |
| `Timing.FarActivityGetsNoWakeUp` | internal/controller/service/service.go:337-359 | for every positive timeout there is such an answer |
| `Timing.OpenPassWakes` | internal/controller/service/service.go:41-65 | a pass stops for the deadline exactly from start + deadline on; one that leaves the operation open asks for a wake-up by then, except exactly for an unserviceable check-in |
| `Timing.OpenWaitIsEarliest` | internal/controller/service/service.go:56-65 | an open pass asks for the earlier of the deadline's wait and the culling check, and for nothing without both |
| `Timing.FinishServicePass` | internal/controller/service/service.go:41-65 | the end of an error-free Service pass: requeue, delay, delete and new status |
| `Timing.FinishClusterPass` | internal/controller/cluster/daskcluster.go:22-32 | the same for a cluster pass |
| `Timing.DeadlineIsServed` | internal/controller/cluster/daskcluster.go:22-32 | over timed runs of such passes a wake-up for the deadline is always pending, the stop is never early, and past the deadline the operation has ended |
| `ProtocolSafety.RecordGood` | api/v1/condition.go:207-252 | logging on a status that is not done keeps one end state and the completion time in step, and follows the old status |
| `ProtocolSafety.ResumeOk` | internal/controller/job/job.go:21-101 | every answer to a call leaves the worker's copy and next call consistent |
| `ProtocolSafety.RuntimeOk` | internal/controller/kfjob/tfjob.go:48-114 | the get, create, refetch and status part of a pass leaves the worker consistent |
| `ProtocolSafety.ServicePartOk` | internal/controller/service/service.go:23-66 | base service, deadline, exit and culling leave the worker consistent |
| `ProtocolStale.StaleClusterPassEndsTwice` | internal/controller/cluster/daskcluster.go:113-154 | a cluster pass that rereads the operation after its create and whose writes are accepted stores two end states exactly when what it read had succeeded or stopped |
| `ProtocolChildren.ReachesChild` | internal/controller/cluster/controller.go:53-117 | a successful pass over an operation neither done nor deleting comes to the child within six calls, with the start time of the pass and exactly the finalizers asked for stored |
| `ProtocolChildren.ChildIsFound` | internal/controller/job/job.go:81-90 | a child that is there is updated and then observed |
| `ProtocolChildren.ChildIsCreated` | internal/controller/job/job.go:62-80 | a child that was never there is created once, and Starting stored and pushed |
| `ProtocolChildren.ClusterIsCreated` | internal/controller/cluster/daskcluster.go:98-124 | the same for a cluster, with its reread |
| `ProtocolChildren.MissingJobStops` | internal/controller/kfjob/tfjob.go:48-64 | a Job or KfJob whose child went missing is stored and pushed as stopped, with its completion time |
| `ProtocolChildren.CreateFailureWarns` | internal/controller/job/job.go:62-72 | a failed create is stored and pushed as a warning with the error, if that is news |
| `ProtocolPasses.DecisionTaken` | internal/controller/job/job.go:93-100 | an error-free status decision is stored and pushed exactly when it is an update; then the pass ends, looks for the base service, or checks the deadline |
| `ProtocolPasses.BaseIsThere` | internal/controller/service/service.go:189-232 | the base service is created exactly when there is none, and the pass comes to the deadline |
| `ProtocolPasses.PassToDeadline` | internal/controller/service/service.go:31-41 | from the status decision a Service or cluster pass reaches the deadline check within five calls, with both done |
| `ProtocolPasses.PassEnds` | internal/controller/service/service.go:41-65 | four error-free calls from there end the pass as defined, with the stop stored, pushed and deleted, the exit stored and pushed, the idle Service deleted, or nothing |
| `ProtocolPasses.PassFromDecision` | internal/controller/cluster/daskcluster.go:22-32 | the two together, for Services and clusters |
| `ProtocolPasses.PassMeetsDeadline` | internal/controller/cluster/cleanup.go:52-81 | an error-free pass over an operation its decision does not end stops and deletes it exactly when the check finds the deadline passed |
| `ProtocolPasses.FailureEnds` | internal/controller/service/service.go:31-54 | a read, update or reread that fails ends the pass with nothing stored, told or created |
| `ProtocolPasses.FaultEnds` | internal/controller/kfjob/kfcommon.go:83-89 | so does a child status that cannot be converted |
| `ProtocolPasses.FailedWriteEnds` | internal/controller/job/job.go:73-80 | a refused write ends the pass, except that a Job still pushes Starting |
| `ProtocolPasses.FailedDeleteEnds` | internal/controller/service/cleanup.go:15-25 | a failed delete ends the pass with the operation as it was |
| `ProtocolPasses.FailedCollectGoesOn` | internal/controller/job/finalizer.go:40-45 | logs that cannot be collected keep their finalizer; a deleting pass ends, a done one goes on to the TTL |
| `ProtocolPasses.BaseFailureWarns` | internal/controller/service/service.go:189-232 | a base service that cannot be created is stored and pushed as a warning with the error, if that is news |
| `ProtocolCleanup.DoneFinalizersGo` | internal/controller/service/finalizer.go:24-57 | a successful pass over a done operation takes the logs finalizer, or else the status finalizer, and then checks the TTL |
| `ProtocolCleanup.TtlIsServed` | internal/controller/job/cleanup.go:29-49 | no TTL or a due one leads to a delete, a later one to nothing, one without completion time to a panic |
| `ProtocolCleanup.DeletingIsTold` | internal/controller/job/finalizer.go:24-38 | a pass over a deleting operation that is not done pushes Stopped with the clock's times |
| `ProtocolCleanup.DoneIsNotTold` | internal/controller/job/finalizer.go:24-38 | one that is done is not pushed again |
| `ProtocolRuns.NextOk` | internal/controller/cluster/controller.go:53-117 | every step of any worker, every lost response and every move of the environment keeps the world invariant |
| `ProtocolRuns.RunOk` | internal/controller/service/controller.go:52-103 | the invariant holds after every run |
| `ProtocolRuns.EndStatesAreFinal` | internal/controller/job/controller.go:43-92 | in every run no stored status holds two end states, done stays done in the same end state, and a done Job or KfJob keeps its list |
| `ProtocolRuns.CompletionFollowsOutcome` | internal/controller/job/cleanup.go:39-40 | in every run the completion time is stored exactly for done Jobs and KfJobs, whose TTL check never misses it; for others it is missing exactly for Stopped |
| `ProtocolRuns.DeadlineStopIsNotEarly` | internal/controller/cluster/cleanup.go:52-81 | in every run a stop stored for the deadline carries a time at or after start + deadline |
| `ProtocolRuns.DeletesWaitForTtl` | internal/controller/job/cleanup.go:29-49 | in every run each delete of a Job or KfJob with a TTL comes strictly after the stored completion + ttl |
| `ProtocolRuns.ProgressIsKept` | internal/controller/kfjob/tfjob.go:48-84 | in every run a Job or KfJob past creation never goes back to Starting or to no condition |
| `ProtocolRuns.ChildIsNotRecreated` | internal/controller/job/job.go:43-77 | with reads no older than the reconciler's last write no create is issued once a Job or KfJob got past creation or a cluster has any condition |
| `ProtocolRuns.CreateFollowsLoadedRevision` | internal/controller/kfjob/tfjob.go:48-84 | in every run a worker that finds no child creates it exactly when the revision it loaded does not rule that out |
| `ProtocolRuns.StalePassCreatesAgain` | internal/controller/job/controller.go:43-92 | a whole pass over an old revision creates the child exactly when that revision sends it to the child and allows the create, whatever was stored since |
| `ProtocolRuns.FinalizersAreOrdered` | internal/controller/job/finalizer.go:13-57 | in every run the status finalizer never goes before the logs finalizer, which goes only after log collection; neither comes once deleting or done |
| `ProtocolPush.PushesFindACondition` | internal/controller/kfjob/sync.go:9-12 | in every run a push finds a condition |
| `ProtocolPush.LastPushIsLastStored` | internal/controller/kfjob/tfjob.go:48-114 | without crashes, lost status writes and lost pushes, outside deletion, the last condition pushed is the last one stored |
| `ProtocolPush.JobPushesUnstoredStarting` | internal/controller/job/job.go:73-77 | when a Job could not store Starting, because the call failed or the pass was stale, the push agrees with what is stored exactly when its list and the stored one already end in the same Starting |
| `ProtocolPush.RefusedWriteIsPushed` | internal/controller/job/job.go:73-80 | a refused write that still pushes leaves pushed and stored in agreement exactly when it tells the stored condition |
| `ProtocolDeletion.DeletingPass` | internal/controller/job/finalizer.go:24-57 | a successful pass over a deleting operation ends within five calls and takes one finalizer, the logs one first |
| `ProtocolDeletion.TwoPassesFinalize` | internal/controller/cluster/finalizer.go:24-57 | two successful passes take both finalizers and nothing else; unheld, the operation is gone |
| `ProtocolDeletion.TtlMissesExactlyStopped` | internal/controller/service/cleanup.go:28-48 | in every run the TTL check misses the time exactly for a stopped Service or cluster with a TTL |
| `ProtocolDeletion.StoppedTtlPanics` | internal/controller/service/controller.go:74-80 | a successful pass over a done operation with a TTL and no completion time dereferences it within three calls |
| `ProtocolDeletion.MissingClusterStops` | internal/controller/cluster/daskcluster.go:62-97 | a pass that finds the child gone stores a stop without a completion time and rests |
| `ProtocolDeletion.MissingClusterPanics` | internal/controller/cluster/cleanup.go:29-49 | with a TTL the next successful pass dereferences the missing time |
| `ProtocolDeletion.DeadlineStopStored` | internal/controller/service/cleanup.go:63-73 | an expired deadline stores a stop without a completion time; after a failed delete the operation rests so |
| `ProtocolDeletion.FailedDeadlineDeletePanics` | internal/controller/service/cleanup.go:28-80 | with a TTL the next successful pass then dereferences the missing time, for Services and clusters |
| `ProtocolDeletion.DeletedStaysAwayFromTtl` | internal/controller/service/cleanup.go:63-73 | after a delete that goes through the operation is gone or no later fresh pass reaches the TTL |
| `Deployments.GetPodPorts` | internal/helpers/managers/pods.go:87-97 | panics exactly without containers; else the ports of the first one, the given default exactly for a missing list |
| `Deployments.FindMissing` | internal/helpers/managers/deployments.go:98-117 | exactly the requested ports that the container does not expose |
| `Deployments.GenerateDeployment` | internal/helpers/managers/deployments.go:57-139 | fails exactly without containers; labels, selector, template labels, replicas and spec as given; the completed first container reaches the template through the shared array, the others stay |
| `Deployments.CompletedExposes` | internal/helpers/managers/deployments.go:119-136 | the completed container exposes exactly its own and the requested ports, its own in front |
| `Deployments.CompletedAdds` | internal/helpers/managers/deployments.go:119-136 | what is added, exactly when a port is missing, are the requested ports in order, all TCP |
| `Deployments.CompletedTwice` | internal/helpers/managers/deployments.go:95-136 | completing again changes nothing |
| `Deployments.CompletedRepeats` | internal/helpers/managers/deployments.go:119-136 | no port is listed twice exactly when none was before and either nothing was missing, or nothing was there and the requested ports are distinct |
| `Deployments.ServicePortsStable` | internal/controller/service/service.go:26-29 | the edited spec yields the same ports in the next pass |
| `Deployments.GenerateService` | internal/helpers/managers/services.go:65-91 | one TCP port per requested port, targeting it; names are distinct exactly when ports are |
| `Deployments.PortNamesDiffer` | internal/helpers/managers/services.go:68-75 | port names are equal exactly for equal ports |
| `Deployments.NamesFollowPorts` | internal/helpers/managers/services.go:66-75 | the names of a port list are distinct exactly when its ports are |
| `Deployments.BuildManifests` | internal/controller/service/service.go:26-39 | panics exactly without containers and never reaches the error; else the Service lists and targets exactly the requested ports, or the container's, or 6006; each is a port of the first container, own ports stay a prefix, a second pass changes nothing |
| `Deployments.CopyDeploymentFields` | internal/helpers/managers/deployments.go:14-29 | copies labels and pod spec; reports a changed spec or a stored label with another value |
| `Deployments.LabelReportExact` | internal/helpers/managers/deployments.go:16-21 | the label report is wrong exactly when the stored labels are kept (or empty and dropped) and the key sets differ |
| `Deployments.AddedLabelsAreMissed` | internal/helpers/managers/deployments.go:16-21 | labels that are only added are never reported |
| `Labels.PodLabels` | internal/helpers/managers/daskcluster.go:17-42 | a labelled operation's selector finds every generated pod, except Dask ones exactly when their template overrides the label; an unlabelled one finds only pods whose own template carries it empty |
| `Labels.MergeLabels` | internal/helpers/managers/raycluster.go:30-42 | the second map over the first, without the skipped key |
| `Unstructured.CopyUnstructuredField` | internal/helpers/managers/unstructured.go:30-50 | the field as in the source if it is an object there, all else untouched; true exactly when the target changed |
| `Unstructured.CopyUnstructuredSpec` | internal/helpers/managers/unstructured.go:17-26 | the same for any field list, also when both are one object |
| `Unstructured.CopyUnstructuredFields` | internal/helpers/managers/unstructured.go:11-13 | only top-level labels and spec are copied, so metadata is never touched |
| `Unstructured.MergedChanges` | internal/helpers/managers/unstructured.go:30-50 | the target changes exactly when some owned field is missing there or differs |
| `Unstructured.MergedTwice` | internal/helpers/managers/unstructured.go:17-26 | copying again changes nothing |

## Left out

- Watches, predicates, manager wiring and back-off: a pass may begin at any time.
- The HTTP clients of the control plane and of log collection: their outcome is the environment's choice.
- The activity probe's HTTP, JSON and time parsing: any answer or error.
- Failure-message formatting: a formatter is a parameter of the decisions.
- mpijob.go and pytorchjob.go: the same protocol as tfjob.go.
- The unused `handlePastActiveDeadline` of Jobs and KfJobs and the unused `getBackOff`.
- Istio virtual services, the Dask autoscaler, annotations and pod spec contents.
- `CopyJobFields` and `CopyServiceFields`: whether the child needs an update is the environment's choice in the
  protocol; `CopyDeploymentFields` shows the one point of interest.
- Truncation of stored times to seconds: the model keeps the times it was given.
- Spec edits during a run and re-creation of an operation under the same name.
- Spare capacity of Go slices: appending ports builds a new list.
- A cluster or KfJob child whose status is present but not an object: the code's type assertion panics there.
- Timing.DeadlineIsServed: passes are error-free, and waits are counted from the clock reading inside the pass.
- ProtocolRuns.ChildIsNotRecreated: needs one worker whose reads are no older than its last write;
  `ProtocolRuns.CreateFollowsLoadedRevision` says exactly what happens without.
- ProtocolSafety.ResumeOk: a cluster's second read in a pass must show the status it holds; this follows from
  reads that have caught up, and `ProtocolStale.StaleClusterPassEndsTwice` shows why it is asked for.
- ProtocolSafety.RuntimeOk: the same for the read after a create.
- ProtocolRuns.NextOk: the same for one step.
- ProtocolRuns.RunOk: cluster runs have one worker with reads that have caught up, for the same reason.
- ProtocolPush.LastPushIsLastStored: for Jobs only in runs in which a Starting that could not be stored is what is
  stored already; `ProtocolPush.RefusedWriteIsPushed` and `ProtocolPush.JobPushesUnstoredStarting` show that
  it fails otherwise.
