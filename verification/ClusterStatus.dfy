/** The Dask and Ray status decisions (internal/controller/cluster/daskcluster.go and raycluster.go). */
module ClusterStatus {
  import opened Prelude
  import opened Conditions
  import opened Pods
  import opened ServiceStatus
  import opened Verdicts

  /** The pod's own failure is appended to the message when the pods report one. */
  function FailureMessage(message: string, health: Health): string {
    if health.kind == Some(Failed) && health.message != ""
    then message + " (Pod: <reason: " + health.reason + ", message " + health.message + ")" else message
  }

  // ---- Dask ----

  datatype DaskPhase =
    | DaskCreated | DaskPending | DaskHealthChecking | DaskRunning | DaskCrashLoop | DaskSuccessful | DaskError
    | OtherDaskPhase

  datatype DaskChild = DaskNoStatus | DaskUnconvertible | DaskReported(phase: DaskPhase)

  predicate SchedulerRunning(p: Pod) {
    "dask.org/component" in p.labels && p.labels["dask.org/component"] == "scheduler" && MainRunning(p)
  }

  predicate AnySchedulerRunning(pods: seq<Pod>) {
    exists p :: p in pods && SchedulerRunning(p)
  }

  method IsDaskSchedulerRunning(pods: seq<Pod>) returns (r: bool)
    ensures r == AnySchedulerRunning(pods)
  {
    for i := 0 to |pods|
      invariant forall j :: 0 <= j < i ==> !SchedulerRunning(pods[j])
    {
      if "dask.org/component" in pods[i].labels && pods[i].labels["dask.org/component"] == "scheduler" {
        var running := IsMainContainerRunning([pods[i]]);
        if running {
          assert pods[i] in pods && SchedulerRunning(pods[i]);
          return true;
        }
        assert pods[i] in [pods[i]];
      }
    }
    return false;
  }

  predicate CannotCreatePods(c: DeploymentCondition) { c.kind == ReplicaFailure && c.status == True }

  /** The first such condition, deployments and their conditions taken in order. */
  function FirstReplicaFailure(deployments: seq<seq<DeploymentCondition>>): Option<DeploymentCondition>
    decreases |deployments|, if deployments == [] then 0 else |deployments[0]|
  {
    if deployments == [] then None
    else if deployments[0] == [] then FirstReplicaFailure(deployments[1..])
    else if CannotCreatePods(deployments[0][0]) then Some(deployments[0][0])
    else FirstReplicaFailure([deployments[0][1..]] + deployments[1..])
  }

  method GetDaskReplicaFailure(deployments: seq<seq<DeploymentCondition>>) returns (r: Option<DeploymentCondition>)
    ensures r == FirstReplicaFailure(deployments)
  {
    for i := 0 to |deployments|
      invariant FirstReplicaFailure(deployments) == FirstReplicaFailure(deployments[i..])
    {
      for c := 0 to |deployments[i]|
        invariant FirstReplicaFailure(deployments) == FirstReplicaFailure([deployments[i][c..]] + deployments[i + 1..])
      {
        var rest := [deployments[i][c..]] + deployments[i + 1..];
        assert rest[1..] == deployments[i + 1..] && rest[0][1..] == deployments[i][c + 1..];
        if CannotCreatePods(deployments[i][c]) {
          return Some(deployments[i][c]);
        }
      }
      var rest := [deployments[i][|deployments[i]|..]] + deployments[i + 1..];
      assert rest[1..] == deployments[i + 1..];
      assert deployments[i..] == [deployments[i][0..]] + deployments[i + 1..];
    }
    return None;
  }

  function DaskVerdict(child: DaskChild, pods: seq<Pod>, deployments: seq<seq<DeploymentCondition>>): Verdict {
    if InvalidImage(pods).Some? then FailsImage(InvalidImage(pods).value)
    else if child.DaskNoStatus? then Keep
    else if child.DaskUnconvertible? then Fault
    else PhaseVerdict(child.phase, Scan(pods), pods, deployments)
  }

  function PhaseVerdict(
      phase: DaskPhase, health: Health, pods: seq<Pod>, deployments: seq<seq<DeploymentCondition>>): Verdict
  {
    match phase
    case DaskCreated => Log(StartingEntry(), true)
    case DaskPending => Log(WarningEntry("Cluster pending", "Waiting for scheduler and workers to start"), false)
    case DaskHealthChecking => Log(WarningEntry("Health checking", "Cluster is performing health checks"), false)
    case DaskRunning =>
      var failure := FirstReplicaFailure(deployments);
      if failure.Some? then Log(WarningEntry(failure.value.reason, failure.value.message), false)
      else if AnySchedulerRunning(pods) then Log(RunningEntry(), true)
      else if health.kind == Some(Warning) then Warns(health)
      else Keep
    case DaskCrashLoop =>
      Log(WarningEntry("CrashLoopBackOff", FailureMessage("Cluster in CrashLoopBackOff", health)), false)
    case DaskSuccessful => Log(SucceededEntry(), true)
    case DaskError => Log(Entry(Failed, health.reason, FailureMessage("Cluster failed", health)), false)
    case OtherDaskPhase =>
      if health.kind == Some(Warning) && health.reason !in {"", "ContainersNotReady", "PodInitializing"}
      then Warns(health) else Keep
  }

  /** Which types each phase can lead to. */
  lemma PhaseKinds(phase: DaskPhase, health: Health, pods: seq<Pod>, deployments: seq<seq<DeploymentCondition>>)
    ensures var v := PhaseVerdict(phase, health, pods, deployments);
            && !v.Fault?
            && (v.Log? && v.entry.kind == Starting <==> phase == DaskCreated)
            && (v.Log? && v.entry.kind == Succeeded <==> phase == DaskSuccessful)
            && (v.Log? && v.entry.kind == Failed <==> phase == DaskError)
            && (v.Log? && v.entry.kind == Running <==>
                phase == DaskRunning && FirstReplicaFailure(deployments).None? && AnySchedulerRunning(pods))
            && (v.Log? ==> v.entry.kind != Stopped)
  {
  }

  method ReconcileDaskClusterStatus(
      status: OperationStatus, child: DaskChild, pods: seq<Pod>, deployments: seq<seq<DeploymentCondition>>,
      clock: Clock)
    returns (updated: bool, fault: bool)
    modifies status
    ensures var v := DaskVerdict(child, pods, deployments);
            && status.Value() == Apply(old(status.Value()), v, clock, clock.before)
            && fault == v.Fault? && updated == Updates(old(status.Value()), v)
  {
    updated, fault := false, false;
    var image := GetInvalidImageName(pods);
    if image.Some? {
      updated := status.LogFinal(Entry(Failed, INVALID_IMAGE, image.value), clock, clock.before);
      return;
    }
    var health := HasUnschedulablePods(pods);
    match child {
      case DaskNoStatus => return;
      case DaskUnconvertible => return false, true;
      case DaskReported(phase) =>
        match phase {
          case DaskCreated =>
            var _ := status.LogCondition(StartingEntry(), clock);
            return true, false;
          case DaskPending =>
            updated := status.LogWarning("Cluster pending", "Waiting for scheduler and workers to start", clock);
          case DaskHealthChecking =>
            updated := status.LogWarning("Health checking", "Cluster is performing health checks", clock);
          case DaskRunning =>
            var failure := GetDaskReplicaFailure(deployments);
            if failure.Some? {
              updated := status.LogWarning(failure.value.reason, failure.value.message, clock);
              return;
            }
            var running := IsDaskSchedulerRunning(pods);
            if !running {
              if health.kind == Some(Warning) {
                updated := status.LogWarning(health.reason, health.message, clock);
              }
              return;
            }
            var _ := status.LogCondition(RunningEntry(), clock);
            return true, false;
          case DaskCrashLoop =>
            var message := FailureMessage("Cluster in CrashLoopBackOff", health);
            updated := status.LogWarning("CrashLoopBackOff", message, clock);
          case DaskSuccessful =>
            var _ := status.LogFinal(SucceededEntry(), clock, clock.before);
            return true, false;
          case DaskError =>
            var message := FailureMessage("Cluster failed", health);
            updated := status.LogFinal(Entry(Failed, health.reason, message), clock, clock.before);
          case OtherDaskPhase =>
            if health.kind == Some(Warning) && health.reason != "" && health.reason != "ContainersNotReady"
               && health.reason != "PodInitializing" {
              updated := status.LogWarning(health.reason, health.message, clock);
            }
        }
    }
  }

  /** Some condition of some deployment says that pods cannot be created. */
  predicate AnyReplicaFailure(deployments: seq<seq<DeploymentCondition>>) {
    exists i, j :: 0 <= i < |deployments| && 0 <= j < |deployments[i]| && CannotCreatePods(deployments[i][j])
  }

  lemma {:induction false} ReplicaFailureFound(deployments: seq<seq<DeploymentCondition>>)
    ensures FirstReplicaFailure(deployments).Some? <==> AnyReplicaFailure(deployments)
    decreases |deployments|, if deployments == [] then 0 else |deployments[0]|
  {
    if deployments != [] {
      var rest := deployments[1..];
      var first := deployments[0];
      if first == [] {
        ReplicaFailureFound(rest);
        assert forall i :: 0 <= i < |rest| ==> rest[i] == deployments[i + 1];
      } else if !CannotCreatePods(first[0]) {
        var shorter := [first[1..]] + rest;
        ReplicaFailureFound(shorter);
        assert shorter[0] == first[1..] && forall i :: 1 <= i < |shorter| ==> shorter[i] == deployments[i];
        if i, j :| 0 <= i < |deployments| && 0 <= j < |deployments[i]| && CannotCreatePods(deployments[i][j]) {
          assert if i == 0 then shorter[0][j - 1] == deployments[0][j] else shorter[i][j] == deployments[i][j];
        }
        if i, j :| 0 <= i < |shorter| && 0 <= j < |shorter[i]| && CannotCreatePods(shorter[i][j]) {
          assert if i == 0 then deployments[0][j + 1] == shorter[0][j] else deployments[i][j] == shorter[i][j];
        }
      } else {
        assert CannotCreatePods(deployments[0][0]);
      }
    }
  }

  /** The condition reported is the first that says so, deployments and conditions taken in order. */
  lemma {:induction false} ReplicaFailureIsFirst(deployments: seq<seq<DeploymentCondition>>, i: nat, j: nat)
    requires i < |deployments| && j < |deployments[i]| && CannotCreatePods(deployments[i][j])
    requires forall a, b :: 0 <= a < i && 0 <= b < |deployments[a]| ==> !CannotCreatePods(deployments[a][b])
    requires forall b :: 0 <= b < j ==> !CannotCreatePods(deployments[i][b])
    ensures FirstReplicaFailure(deployments) == Some(deployments[i][j])
    decreases |deployments|, |deployments[0]|
  {
    var first, rest := deployments[0], deployments[1..];
    if first == [] {
      ReplicaFailureIsFirst(rest, i - 1, j);
    } else if i > 0 || j > 0 {
      var shorter := [first[1..]] + rest;
      assert forall a :: 1 <= a < |shorter| ==> shorter[a] == deployments[a];
      assert forall b :: 0 <= b < |shorter[0]| ==> shorter[0][b] == deployments[0][b + 1];
      ReplicaFailureIsFirst(shorter, i, if i == 0 then j - 1 else j);
    }
  }

  /** Running means a reported running phase, every deployment able to create pods and a scheduler seen running. */
  lemma DaskRunsExactly(child: DaskChild, pods: seq<Pod>, deployments: seq<seq<DeploymentCondition>>)
    ensures var v := DaskVerdict(child, pods, deployments);
            v.Log? && v.entry.kind == Running <==>
              InvalidImage(pods).None? && child == DaskReported(DaskRunning) && !AnyReplicaFailure(deployments)
              && AnySchedulerRunning(pods)
  {
    ReplicaFailureFound(deployments);
    if child.DaskReported? {
      PhaseKinds(child.phase, Scan(pods), pods, deployments);
    }
  }

  /** An end state comes only from the phase or a bad image name. */
  lemma DaskEndsExactly(child: DaskChild, pods: seq<Pod>, deployments: seq<seq<DeploymentCondition>>)
    ensures var v, image := DaskVerdict(child, pods, deployments), InvalidImage(pods).Some?;
            && (v.Log? && v.entry.kind == Succeeded <==> !image && child == DaskReported(DaskSuccessful))
            && (v.Log? && v.entry.kind == Failed <==> image || child == DaskReported(DaskError))
            && (v.Log? ==> v.entry.kind != Stopped)
  {
    if child.DaskReported? {
      PhaseKinds(child.phase, Scan(pods), pods, deployments);
    }
  }

  /** Pods that warn for a reason worth reporting while the phase is not a known one. */
  ghost predicate WarnsInOtherPhase(pods: seq<Pod>) {
    PodsWarn(pods) && Scan(pods).reason !in {"", "ContainersNotReady", "PodInitializing"}
  }

  /** A warning comes from the phase, from a replica failure, or from pods that warn before the scheduler runs. */
  lemma DaskWarnsExactly(child: DaskChild, pods: seq<Pod>, deployments: seq<seq<DeploymentCondition>>)
    ensures var v := DaskVerdict(child, pods, deployments);
            v.Log? && v.entry.kind == Warning <==>
              && InvalidImage(pods).None? && child.DaskReported?
              && match child.phase
                 case DaskPending => true
                 case DaskHealthChecking => true
                 case DaskCrashLoop => true
                 case DaskRunning => AnyReplicaFailure(deployments) || (!AnySchedulerRunning(pods) && PodsWarn(pods))
                 case OtherDaskPhase => WarnsInOtherPhase(pods)
                 case _ => false
  {
    ReplicaFailureFound(deployments);
    ScanWarns(pods);
    if child.DaskReported? {
      PhaseWarns(child.phase, Scan(pods), pods, deployments);
    }
  }

  lemma PhaseWarns(phase: DaskPhase, health: Health, pods: seq<Pod>, deployments: seq<seq<DeploymentCondition>>)
    ensures var v := PhaseVerdict(phase, health, pods, deployments);
            v.Log? && v.entry.kind == Warning <==>
              match phase
              case DaskPending => true
              case DaskHealthChecking => true
              case DaskCrashLoop => true
              case DaskRunning =>
                FirstReplicaFailure(deployments).Some? || (!AnySchedulerRunning(pods) && health.kind == Some(Warning))
              case OtherDaskPhase =>
                health.kind == Some(Warning) && health.reason !in {"", "ContainersNotReady", "PodInitializing"}
              case _ => false
  {
  }

  /** What the entry says where the child or the pods supply the words. */
  lemma DaskEntries(child: DaskChild, pods: seq<Pod>, deployments: seq<seq<DeploymentCondition>>)
    ensures var v := DaskVerdict(child, pods, deployments);
            && (HasBadImage(pods) ==> InvalidImage(pods).Some? && v == FailsImage(InvalidImage(pods).value))
            && (!HasBadImage(pods) && v.Log? && v.entry.kind == Failed ==> v.entry.reason == Scan(pods).reason)
            && (v.Log? && v.entry.kind == Running ==> v.entry == RunningEntry())
            && (child == DaskReported(DaskRunning) && v.Log? && v.entry.kind == Warning ==>
                v.entry == match FirstReplicaFailure(deployments)
                           case Some(c) => WarningEntry(c.reason, c.message)
                           case None => WarningEntry(Scan(pods).reason, Scan(pods).message))
            && (child == DaskReported(OtherDaskPhase) && v.Log? && v.entry.kind == Warning ==>
                v.entry == WarningEntry(Scan(pods).reason, Scan(pods).message))
  {
    InvalidImageExists(pods);
    if child.DaskReported? {
      PhaseKinds(child.phase, Scan(pods), pods, deployments);
    }
  }

  // ---- Ray ----

  const SUSPENDED := "RayClusterSuspended"
  const REPLICA_FAILURE := "ReplicaFailure"
  const HEAD_READY := "HeadPodReady"
  const PROVISIONED := "RayClusterProvisioned"
  const NO_DETAILS := ("ReplicaFailure", "Replica failure occurred")
  const SUSPENDED_WARNING: Entry := WarningEntry("Suspended", "RayCluster is suspended")
  const PROVISIONING_WARNING: Entry := WarningEntry("Provisioning", "Head pod is ready, waiting for workers")

  datatype RayCondition = RayCondition(kind: string, status: Truth, reason: string, message: string)

  datatype RayChild = RayNoStatus | RayUnconvertible | RayReported(conditions: seq<RayCondition>)

  /** Position i holds the first condition of this type, and it is true. */
  ghost predicate AssertsAt(conditions: seq<RayCondition>, kind: string, i: nat) {
    i < |conditions| && conditions[i].kind == kind && conditions[i].status == True
    && forall j :: 0 <= j < i ==> conditions[j].kind != kind
  }

  ghost predicate Asserts(conditions: seq<RayCondition>, kind: string) {
    exists i :: AssertsAt(conditions, kind, i)
  }

  /** Only the first condition of a type is looked at. */
  function RayTruth(conditions: seq<RayCondition>, kind: string): Truth {
    if conditions == [] then Unknown
    else if conditions[0].kind == kind then conditions[0].status
    else RayTruth(conditions[1..], kind)
  }

  /** Unlike RayTruth this looks for the first true one. */
  function RayFailureInfo(conditions: seq<RayCondition>): (string, string) {
    if conditions == [] then NO_DETAILS
    else if conditions[0].kind == REPLICA_FAILURE && conditions[0].status == True
    then (conditions[0].reason, conditions[0].message)
    else RayFailureInfo(conditions[1..])
  }

  method GetConditionStatus(conditions: seq<RayCondition>, kind: string) returns (r: Truth)
    ensures r == RayTruth(conditions, kind)
  {
    for i := 0 to |conditions|
      invariant RayTruth(conditions, kind) == RayTruth(conditions[i..], kind)
    {
      if conditions[i].kind == kind {
        return conditions[i].status;
      }
    }
    return Unknown;
  }

  method GetReplicaFailureInfo(conditions: seq<RayCondition>) returns (r: (string, string))
    ensures r == RayFailureInfo(conditions)
  {
    for i := 0 to |conditions|
      invariant RayFailureInfo(conditions) == RayFailureInfo(conditions[i..])
    {
      if conditions[i].kind == REPLICA_FAILURE && conditions[i].status == True {
        return (conditions[i].reason, conditions[i].message);
      }
    }
    return NO_DETAILS;
  }

  /** A type counts as true exactly when its first condition is true. */
  lemma {:induction false} RayTruthMeaning(conditions: seq<RayCondition>, kind: string)
    ensures RayTruth(conditions, kind) == True <==> Asserts(conditions, kind)
  {
    if conditions != [] {
      var rest := conditions[1..];
      if conditions[0].kind == kind {
        assert AssertsAt(conditions, kind, 0) <==> conditions[0].status == True;
      } else {
        RayTruthMeaning(rest, kind);
        if i: nat :| AssertsAt(rest, kind, i) {
          assert conditions[i + 1] == rest[i] && AssertsAt(conditions, kind, i + 1);
        }
        if i: nat :| AssertsAt(conditions, kind, i) {
          assert rest[i - 1] == conditions[i] && AssertsAt(rest, kind, i - 1);
        }
      }
    }
  }

  /** The details of a failure come from the condition that asserts it. */
  lemma {:induction false} RayFailureInfoMeaning(conditions: seq<RayCondition>, i: nat)
    requires AssertsAt(conditions, REPLICA_FAILURE, i)
    ensures RayFailureInfo(conditions) == (conditions[i].reason, conditions[i].message)
  {
    if i > 0 {
      assert AssertsAt(conditions[1..], REPLICA_FAILURE, i - 1);
      RayFailureInfoMeaning(conditions[1..], i - 1);
    }
  }

  function RayVerdict(child: RayChild, pods: seq<Pod>): Verdict {
    if InvalidImage(pods).Some? then FailsImage(InvalidImage(pods).value)
    else if Scan(pods).kind == Some(Warning) then Warns(Scan(pods))
    else if child.RayNoStatus? then Keep
    else if child.RayUnconvertible? then Fault
    else RayConditionsVerdict(child.conditions, Scan(pods))
  }

  function RayConditionsVerdict(conditions: seq<RayCondition>, health: Health): Verdict {
    if RayTruth(conditions, SUSPENDED) == True then Log(SUSPENDED_WARNING, false)
    else if RayTruth(conditions, REPLICA_FAILURE) == True then
      var (reason, message) := RayFailureInfo(conditions);
      Log(Entry(Failed, reason, FailureMessage(message, health)), false)
    else if RayTruth(conditions, HEAD_READY) != True then Keep
    else if RayTruth(conditions, PROVISIONED) == True then Log(RunningEntry(), true)
    else Log(PROVISIONING_WARNING, false)
  }

  method ReconcileRayClusterStatus(status: OperationStatus, child: RayChild, pods: seq<Pod>, clock: Clock)
    returns (updated: bool, fault: bool)
    modifies status
    ensures var v := RayVerdict(child, pods);
            && status.Value() == Apply(old(status.Value()), v, clock, clock.before)
            && fault == v.Fault? && updated == Updates(old(status.Value()), v)
  {
    updated, fault := false, false;
    var image := GetInvalidImageName(pods);
    if image.Some? {
      updated := status.LogFinal(Entry(Failed, INVALID_IMAGE, image.value), clock, clock.before);
      return;
    }
    var health := HasUnschedulablePods(pods);
    if health.kind == Some(Warning) {
      updated := status.LogWarning(health.reason, health.message, clock);
      return;
    }
    if child.RayNoStatus? {
      return;
    }
    if child.RayUnconvertible? {
      return false, true;
    }
    updated := LogRayConditions(status, child.conditions, health, clock);
  }

  /** The part of the cascade that reads the child's conditions. */
  method LogRayConditions(status: OperationStatus, conditions: seq<RayCondition>, health: Health, clock: Clock)
    returns (updated: bool)
    modifies status
    ensures var v := RayConditionsVerdict(conditions, health);
            && status.Value() == Apply(old(status.Value()), v, clock, clock.before)
            && updated == Updates(old(status.Value()), v)
  {
    var suspended := GetConditionStatus(conditions, SUSPENDED);
    if suspended == True {
      updated := status.LogWarning("Suspended", "RayCluster is suspended", clock);
      return;
    }
    var failure := GetConditionStatus(conditions, REPLICA_FAILURE);
    if failure == True {
      var info := GetReplicaFailureInfo(conditions);
      updated := status.LogFinal(Entry(Failed, info.0, FailureMessage(info.1, health)), clock, clock.before);
      return;
    }
    var ready := GetConditionStatus(conditions, HEAD_READY);
    var provisioned := GetConditionStatus(conditions, PROVISIONED);
    if ready == True && provisioned == True {
      var _ := status.LogCondition(RunningEntry(), clock);
      return true;
    }
    if ready == True {
      updated := status.LogWarning("Provisioning", "Head pod is ready, waiting for workers", clock);
      return;
    }
    return false;
  }

  /** What the child's conditions alone lead to. */
  lemma RayConditionOutcomes(conditions: seq<RayCondition>, health: Health)
    ensures var v := RayConditionsVerdict(conditions, health);
            var suspended, failed := Asserts(conditions, SUSPENDED), Asserts(conditions, REPLICA_FAILURE);
            var ready, provisioned := Asserts(conditions, HEAD_READY), Asserts(conditions, PROVISIONED);
            && (v.Log? && v.entry.kind == Failed <==> !suspended && failed)
            && (v.Log? && v.entry.kind == Running <==> !suspended && !failed && ready && provisioned)
            && (v.Log? && v.entry.kind == Warning <==> suspended || (!failed && ready && !provisioned))
            && (v.Log? ==> v.entry.kind in {Failed, Warning, Running})
            && !v.Fault?
  {
    RayTruthMeaning(conditions, SUSPENDED);
    RayTruthMeaning(conditions, REPLICA_FAILURE);
    RayTruthMeaning(conditions, HEAD_READY);
    RayTruthMeaning(conditions, PROVISIONED);
  }

  /**
   A Ray cluster is Running exactly when neither image nor pods stand in the way and its first conditions assert
   a ready head and provisioned workers, no suspension and no replica failure; it fails exactly for a bad image
   name or for a replica failure that neither suspension nor a pod warning hides; all else that is logged warns.
   */
  lemma RayOutcomes(child: RayChild, pods: seq<Pod>)
    ensures var v, image, warns := RayVerdict(child, pods), HasBadImage(pods), PodsWarn(pods);
            var says := (kind: string) => child.RayReported? && Asserts(child.conditions, kind);
            && (v.Log? && v.entry.kind == Failed <==> image || (!warns && !says(SUSPENDED) && says(REPLICA_FAILURE)))
            && (v.Log? && v.entry.kind == Running <==>
                !image && !warns && !says(SUSPENDED) && !says(REPLICA_FAILURE) && says(HEAD_READY) && says(PROVISIONED))
            && (v.Log? && v.entry.kind == Warning <==>
                !image && (|| warns || says(SUSPENDED)
                           || (!says(REPLICA_FAILURE) && says(HEAD_READY) && !says(PROVISIONED))))
            && (v.Log? ==> v.entry.kind in {Failed, Warning, Running})
            && (v.Fault? <==> !image && !warns && child.RayUnconvertible?)
  {
    InvalidImageExists(pods);
    ScanWarns(pods);
    if child.RayReported? {
      RayConditionOutcomes(child.conditions, Scan(pods));
    }
  }

  /** Unlike a Job, a Ray cluster records its replica failure only once the pods stop warning, with its own details. */
  lemma RayFailureWaitsForPods(child: RayChild, pods: seq<Pod>, i: nat)
    requires child.RayReported? && AssertsAt(child.conditions, REPLICA_FAILURE, i)
    requires !Asserts(child.conditions, SUSPENDED) && !HasBadImage(pods)
    ensures var v := RayVerdict(child, pods);
            && (Terminates(v) <==> !PodsWarn(pods))
            && (Terminates(v) ==> v.entry.reason == child.conditions[i].reason)
  {
    RayOutcomes(child, pods);
    RayFailureInfoMeaning(child.conditions, i);
    RayTruthMeaning(child.conditions, SUSPENDED);
    RayTruthMeaning(child.conditions, REPLICA_FAILURE);
    InvalidImageExists(pods);
    ScanWarns(pods);
  }

  /** What the entry says: the bad image, the pods' warning, or the state the conditions assert. */
  lemma RayEntries(child: RayChild, pods: seq<Pod>)
    ensures var v := RayVerdict(child, pods);
            && (HasBadImage(pods) ==> InvalidImage(pods).Some? && v == FailsImage(InvalidImage(pods).value))
            && (v.Log? && v.entry.kind == Running ==> v.entry == RunningEntry())
            && (v.Log? && v.entry.kind == Warning && PodsWarn(pods) ==>
                v.entry == WarningEntry(Scan(pods).reason, Scan(pods).message))
            && (v.Log? && v.entry.kind == Warning && !PodsWarn(pods) ==>
                && child.RayReported?
                && v.entry == if Asserts(child.conditions, SUSPENDED) then SUSPENDED_WARNING else PROVISIONING_WARNING)
  {
    InvalidImageExists(pods);
    ScanWarns(pods);
    if child.RayReported? {
      RayTruthMeaning(child.conditions, SUSPENDED);
    }
  }
}
