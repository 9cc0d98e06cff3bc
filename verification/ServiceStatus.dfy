/** The Service status decisions (internal/controller/service/service.go). */
module ServiceStatus {
  import opened Prelude
  import opened Conditions
  import opened Pods
  import opened Verdicts

  // ---- the deployment ----

  datatype DeploymentConditionType = ReplicaFailure | Available | Progressing | OtherDeploymentCondition

  datatype DeploymentCondition = DeploymentCondition(
    kind: DeploymentConditionType, status: Truth, reason: string, message: string)

  datatype Deployment = Deployment(
    conditions: seq<DeploymentCondition>, available: int32, ready: int32, unavailable: int32)

  const BLANK_DEPLOYMENT: Deployment := Deployment([], 0, 0, 0)

  predicate IsDeploymentWarning(d: Deployment, c: DeploymentCondition) {
    || c.kind == ReplicaFailure || (c.kind == Available && c.status == False)
    || (c.kind == Progressing && d.unavailable > 0)
  }

  predicate IsDeploymentRunning(d: Deployment, c: DeploymentCondition) {
    (c.kind == Progressing && d.available > 0 && d.ready > 0) || (c.kind == Available && c.status == True)
  }

  function DeploymentVerdict(d: Deployment, pods: seq<Pod>): Verdict {
    if InvalidImage(pods).Some? then FailsImage(InvalidImage(pods).value)
    else if Scan(pods).kind == Some(Warning) then Warns(Scan(pods))
    else if d.conditions == [] then Keep
    else
      var last := d.conditions[|d.conditions| - 1];
      if IsDeploymentWarning(d, last) then Log(WarningEntry(last.reason, last.message), true)
      else if IsDeploymentRunning(d, last) then Log(RunningEntry(), true)
      else Keep
  }

  /** Here the completion time is read after the Log call. */
  method ReconcileDeploymentStatus(status: OperationStatus, d: Deployment, pods: seq<Pod>, clock: Clock)
    returns (updated: bool)
    modifies status
    ensures status.Value() == Apply(old(status.Value()), DeploymentVerdict(d, pods), clock, clock.after)
    ensures updated == Updates(old(status.Value()), DeploymentVerdict(d, pods))
  {
    var image := GetInvalidImageName(pods);
    if image.Some? {
      updated := status.LogFinal(Entry(Failed, INVALID_IMAGE, image.value), clock, clock.after);
      return;
    }
    var health := HasUnschedulablePods(pods);
    if health.kind == Some(Warning) {
      updated := status.LogWarning(health.reason, health.message, clock);
      return;
    }
    if |d.conditions| == 0 {
      return false;
    }
    var last := d.conditions[|d.conditions| - 1];
    if IsDeploymentWarning(d, last) {
      var _ := status.LogWarning(last.reason, last.message, clock);
      return true;
    }
    if IsDeploymentRunning(d, last) {
      var _ := status.LogCondition(RunningEntry(), clock);
      return true;
    }
    return false;
  }

  /** The last condition of the deployment, which alone speaks for it. */
  ghost predicate LastSays(d: Deployment, kind: DeploymentConditionType) {
    d.conditions != [] && d.conditions[|d.conditions| - 1].kind == kind
  }

  ghost predicate LastStatus(d: Deployment, status: Truth) {
    d.conditions != [] && d.conditions[|d.conditions| - 1].status == status
  }

  ghost predicate Unhealthy(d: Deployment) {
    LastSays(d, ReplicaFailure) || (LastSays(d, Available) && LastStatus(d, False))
    || (LastSays(d, Progressing) && d.unavailable > 0)
  }

  ghost predicate Serving(d: Deployment) {
    (LastSays(d, Available) && LastStatus(d, True))
    || (LastSays(d, Progressing) && d.unavailable <= 0 && d.available > 0 && d.ready > 0)
  }

  /**
   The deployment decision fails a Service exactly for a bad image name, warns exactly when the pods warn or the
   deployment is unhealthy, and reports Running exactly when the deployment serves and no pod stands in the way.
   */
  lemma DeploymentOutcomes(d: Deployment, pods: seq<Pod>)
    ensures var v := DeploymentVerdict(d, pods);
            && (v.Log? && v.entry.kind == Failed <==> HasBadImage(pods))
            && (v.Log? && v.entry.kind == Warning <==> !HasBadImage(pods) && (PodsWarn(pods) || Unhealthy(d)))
            && (v.Log? && v.entry.kind == Running <==> !HasBadImage(pods) && !PodsWarn(pods) && Serving(d))
            && (v.Log? ==> v.entry.kind in {Failed, Warning, Running})
            && !v.Fault?
  {
    InvalidImageExists(pods);
    ScanWarns(pods);
  }

  /** What the entry says: the bad image, the pods' warning before the deployment's own, or the plain Running. */
  lemma DeploymentEntries(d: Deployment, pods: seq<Pod>)
    ensures var v := DeploymentVerdict(d, pods);
            && (HasBadImage(pods) ==> InvalidImage(pods).Some? && v == FailsImage(InvalidImage(pods).value))
            && (v.Log? && v.entry.kind == Warning && PodsWarn(pods) ==>
                v.entry == WarningEntry(Scan(pods).reason, Scan(pods).message))
            && (v.Log? && v.entry.kind == Warning && !PodsWarn(pods) ==>
                && d.conditions != []
                && var c := d.conditions[|d.conditions| - 1]; v.entry == WarningEntry(c.reason, c.message))
            && (v.Log? && v.entry.kind == Running ==> v.entry == RunningEntry())
  {
    DeploymentOutcomes(d, pods);
    InvalidImageExists(pods);
    ScanWarns(pods);
  }

  // ---- container exits ----

  type ExitFormatter = (ExitStatus, int32) -> string

  function ReplicasOf(replicas: Option<int32>): int32 { if replicas.Some? then replicas.value else 1 }

  function LimitOf(backoff: Option<int32>): int32 { if backoff.Some? then backoff.value else 0 }

  function ExitVerdict(
      pods: seq<Pod>, replicas: Option<int32>, backoff: Option<int32>, format: ExitFormatter): Verdict
  {
    var exit := ExitOf(pods);
    if exit.None? then Keep
    else if exit.value.exitCode == 0 then (if ReplicasOf(replicas) == 1 then Log(SucceededEntry(), false) else Keep)
    else if LimitOf(backoff) < 0 || exit.value.FailedAttempts() <= LimitOf(backoff) then Keep
    else Log(Entry(Failed, exit.value.FailureReason(), format(exit.value, LimitOf(backoff))), false)
  }

  /** `labelled` is whether the Service carries the instance label; without it the check is skipped. */
  method HandleServiceContainerExit(
      status: OperationStatus, labelled: bool, pods: seq<Pod>, replicas: Option<int32>, backoff: Option<int32>,
      format: ExitFormatter, clock: Clock)
    returns (done: bool)
    modifies status
    ensures var v := if labelled then ExitVerdict(pods, replicas, backoff, format) else Keep;
            status.Value() == Apply(old(status.Value()), v, clock, clock.before) && done == v.Log?
  {
    if !labelled {
      return false;
    }
    var exit := GetMainContainerExitStatus(pods);
    if exit.None? {
      return false;
    }
    var count: int32 := 1;
    if replicas.Some? {
      count := replicas.value;
    }
    if count == 1 && exit.value.exitCode == 0 {
      var _ := status.LogFinal(SucceededEntry(), clock, clock.before);
      return true;
    }
    if exit.value.exitCode == 0 {
      return false;
    }
    var limit: int32 := 0;
    if backoff.Some? {
      limit := backoff.value;
    }
    if limit < 0 || exit.value.FailedAttempts() <= limit {
      return false;
    }
    var _ := status.LogFinal(Entry(Failed, exit.value.FailureReason(), format(exit.value, limit)), clock, clock.before);
    return true;
  }

  /**
   A Service fails exactly when the back-off limit, by default zero, is not negative and some pod's main container
   failed more often than that; the reason is that of a pod that failed most often. It succeeds exactly when it has
   one replica, as by default, no main container failed and some ended well.
   */
  lemma ExitVerdictMeaning(pods: seq<Pod>, replicas: Option<int32>, backoff: Option<int32>, format: ExitFormatter)
    ensures var v := ExitVerdict(pods, replicas, backoff, format);
            var limit := if backoff.Some? then backoff.value else 0;
            && (v.Log? && v.entry.kind == Failed <==> limit >= 0 && exists p :: p in pods && MainFailedOften(p, limit))
            && (v.Log? && v.entry.kind == Failed ==>
                exists p, i :: WorstPod(pods, p, i) && v.entry.reason == ReasonOf(p.statuses[i]))
            && (v.Log? && v.entry.kind == Succeeded <==>
                (replicas == None || replicas == Some(1))
                && (forall p :: p in pods ==> !MainFailed(p)) && exists p :: p in pods && MainEndedWell(p))
            && (v.Log? ==> v.entry.kind in {Failed, Succeeded} && !v.forced)
            && !v.Fault?
  {
    WorstExitMeaning(pods, if backoff.Some? then backoff.value else 0);
    CleanExitMeaning(pods);
  }

  /** Reordering the pods never changes the outcome. */
  lemma ExitVerdictIgnoresOrder(
      a: seq<Pod>, b: seq<Pod>, replicas: Option<int32>, backoff: Option<int32>, format: ExitFormatter)
    requires multiset(a) == multiset(b)
    ensures var va, vb := ExitVerdict(a, replicas, backoff, format), ExitVerdict(b, replicas, backoff, format);
            va.Log? == vb.Log? && (va.Log? ==> va.entry.kind == vb.entry.kind)
  {
    ExitVerdictMeaning(a, replicas, backoff, format);
    ExitVerdictMeaning(b, replicas, backoff, format);
    forall p
      ensures p in a <==> p in b
    {
      assert p in a <==> p in multiset(a);
      assert p in b <==> p in multiset(b);
    }
  }
}
