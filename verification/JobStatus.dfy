/** The Job status decision (internal/controller/job/job.go, reconcileJobStatus). */
module JobStatus {
  import opened Prelude
  import opened Conditions
  import opened Pods
  import opened Verdicts

  datatype JobConditionType = JobComplete | JobFailed | OtherJobCondition

  datatype JobCondition = JobCondition(kind: JobConditionType, status: Truth, reason: string, message: string)

  /** The status of the batch Job the operation owns. */
  datatype BatchJob = BatchJob(
    conditions: seq<JobCondition>, active: int32, succeeded: int32, failed: int32, completion: Option<int>)

  /** The object handed to the decision right after a create: nothing reported yet. */
  const BLANK_JOB: BatchJob := BatchJob([], 0, 0, 0, None)

  function JobFailureReason(reason: string, exit: Option<ExitStatus>): string {
    if reason == "BackoffLimitExceeded" && exit.Some? && exit.value.exitCode != 0
    then exit.value.FailureReason() else reason
  }

  // ---- the priority table ----

  datatype Rule =
    | BadImageName | JobSuccess | JobFailure | PodWarning | NoPodsYet | FailedAttempts | MainIsRunning | NothingNew

  function Rank(rule: Rule): nat {
    match rule
    case BadImageName => 0
    case JobSuccess => 1
    case JobFailure => 2
    case PodWarning => 3
    case NoPodsYet => 4
    case FailedAttempts => 5
    case MainIsRunning => 6
    case NothingNew => 7
  }

  predicate LastJobCondition(job: BatchJob, kind: JobConditionType) {
    job.conditions != []
    && job.conditions[|job.conditions| - 1].kind == kind && job.conditions[|job.conditions| - 1].status == True
  }

  /** When each row of the table holds, with no reference to the other rows. */
  predicate Applies(rule: Rule, job: BatchJob, pods: seq<Pod>) {
    match rule
    case BadImageName => InvalidImage(pods).Some?
    case JobSuccess =>
      LastJobCondition(job, JobComplete) && job.succeeded > 0 && (job.active == 0 || job.completion.Some?)
    case JobFailure => LastJobCondition(job, JobFailed) && job.failed > 0
    case PodWarning => Scan(pods).kind == Some(Warning)
    case NoPodsYet => pods == [] && job.completion.None?
    case FailedAttempts => job.conditions == [] && job.failed > 0 && job.active == 0
    case MainIsRunning => job.conditions == [] && job.active > 0 && AnyMainRunning(pods)
    case NothingNew => true
  }

  function RowVerdict(rule: Rule, job: BatchJob, pods: seq<Pod>, format: Formatter): Verdict
    requires Applies(rule, job, pods)
  {
    match rule
    case BadImageName => FailsImage(InvalidImage(pods).value)
    case JobSuccess => Log(SucceededEntry(), false)
    case JobFailure =>
      var last := job.conditions[|job.conditions| - 1];
      Log(Entry(Failed, JobFailureReason(last.reason, ExitOf(pods)),
                format(last.message, ExitOf(pods), Some(job.failed))), false)
    case PodWarning => Warns(Scan(pods))
    case NoPodsYet => Keep
    case FailedAttempts => Log(WarningEntry("", ""), false)
    case MainIsRunning => Log(RunningEntry(), false)
    case NothingNew => Keep
  }

  /** The row applies and no row of higher priority does. */
  ghost predicate Decides(rule: Rule, job: BatchJob, pods: seq<Pod>) {
    Applies(rule, job, pods) && forall r :: Applies(r, job, pods) ==> Rank(rule) <= Rank(r)
  }

  function RuleFor(job: BatchJob, pods: seq<Pod>): (rule: Rule)
    ensures Applies(rule, job, pods)
  {
    if Applies(BadImageName, job, pods) then BadImageName
    else if Applies(JobSuccess, job, pods) then JobSuccess
    else if Applies(JobFailure, job, pods) then JobFailure
    else if Applies(PodWarning, job, pods) then PodWarning
    else if Applies(NoPodsYet, job, pods) then NoPodsYet
    else if Applies(FailedAttempts, job, pods) then FailedAttempts
    else if Applies(MainIsRunning, job, pods) then MainIsRunning
    else NothingNew
  }

  /** The flat chain picks the row of highest priority, and only that row can be picked. */
  lemma RuleForDecides(job: BatchJob, pods: seq<Pod>, rule: Rule)
    ensures Decides(rule, job, pods) <==> rule == RuleFor(job, pods)
  {
    var chosen := RuleFor(job, pods);
    forall r | Applies(r, job, pods)
      ensures Rank(chosen) <= Rank(r)
    {
    }
    if Decides(rule, job, pods) {
      assert Rank(rule) <= Rank(chosen) && Rank(chosen) <= Rank(rule);
    }
  }

  function JobVerdict(job: BatchJob, pods: seq<Pod>, format: Formatter): Verdict {
    RowVerdict(RuleFor(job, pods), job, pods, format)
  }

  /** The cascade is the table: the row of highest priority that applies, whatever the status held before. */
  method ReconcileJobStatus(status: OperationStatus, job: BatchJob, pods: seq<Pod>, format: Formatter, clock: Clock)
    returns (updated: bool)
    modifies status
    ensures status.Value() == Apply(old(status.Value()), JobVerdict(job, pods, format), clock, clock.before)
    ensures updated == Updates(old(status.Value()), JobVerdict(job, pods, format))
  {
    ghost var rule := RuleFor(job, pods);
    ghost var v := JobVerdict(job, pods, format);
    var image := GetInvalidImageName(pods);
    if image.Some? {
      assert rule == BadImageName && v == FailsImage(image.value);
      updated := status.LogFinal(Entry(Failed, INVALID_IMAGE, image.value), clock, clock.before);
      return;
    }
    var health := HasUnschedulablePods(pods);
    var exit := GetMainContainerExitStatus(pods);

    if |job.conditions| > 0 {
      var last := job.conditions[|job.conditions| - 1];
      if job.active == 0 && job.succeeded > 0 && last.kind == JobComplete && last.status == True {
        assert rule == JobSuccess && v == Log(SucceededEntry(), false);
        updated := status.LogFinal(SucceededEntry(), clock, clock.before);
        if updated {
          return;
        }
      }
      if job.completion.Some? && job.succeeded > 0 && last.kind == JobComplete && last.status == True {
        assert rule == JobSuccess && v == Log(SucceededEntry(), false);
        updated := status.LogFinal(SucceededEntry(), clock, clock.before);
        if updated {
          return;
        }
      }
      if job.failed > 0 && last.kind == JobFailed && last.status == True {
        assert rule == JobFailure;
        var message := format(last.message, exit, Some(job.failed));
        updated := status.LogFinal(Entry(Failed, JobFailureReason(last.reason, exit), message), clock, clock.before);
        if updated {
          return;
        }
      }
    }

    updated := LogJobProgress(status, job, pods, health, format, clock);
  }

  /** The rest of the cascade, once no end state was found. */
  method LogJobProgress(
      status: OperationStatus, job: BatchJob, pods: seq<Pod>, health: Health, ghost format: Formatter, clock: Clock)
    returns (updated: bool)
    requires health == Scan(pods) && Rank(RuleFor(job, pods)) >= Rank(PodWarning)
    modifies status
    ensures status.Value() == Apply(old(status.Value()), JobVerdict(job, pods, format), clock, clock.before)
    ensures updated == Updates(old(status.Value()), JobVerdict(job, pods, format))
  {
    ghost var rule := RuleFor(job, pods);
    ghost var v := JobVerdict(job, pods, format);
    if health.kind == Some(Warning) {
      assert rule == PodWarning && v == Warns(health);
      updated := status.LogWarning(health.reason, health.message, clock);
      return;
    }
    ScanStarting(pods);
    if health.kind == Some(Starting) && job.completion.None? {
      assert rule == NoPodsYet && v == Keep;
      return false;
    }
    if |job.conditions| == 0 {
      if job.failed > 0 && job.active == 0 {
        assert rule == FailedAttempts && v == Log(WarningEntry("", ""), false);
        updated := status.LogWarning("", "", clock);
        return;
      } else if job.active > 0 {
        var running := IsMainContainerRunning(pods);
        if running {
          assert rule == MainIsRunning && v == Log(RunningEntry(), false);
          updated := status.LogCondition(RunningEntry(), clock);
          return;
        }
      }
    }
    assert rule == NothingNew && v == Keep;
    return false;
  }

  /** A finished child is recorded as finished whatever the pods warn about; only a bad image name outranks it. */
  lemma TerminalOutcomeIsNeverMasked(job: BatchJob, pods: seq<Pod>, format: Formatter)
    requires Applies(JobSuccess, job, pods) || Applies(JobFailure, job, pods)
    ensures Terminates(JobVerdict(job, pods, format))
    ensures JobVerdict(job, pods, format).entry.kind ==
            if InvalidImage(pods).Some? || !Applies(JobSuccess, job, pods) then Failed else Succeeded
  {
    RuleForDecides(job, pods, RuleFor(job, pods));
    assert Applies(JobSuccess, job, pods) ==> Rank(RuleFor(job, pods)) <= Rank(JobSuccess);
    assert Applies(JobFailure, job, pods) ==> Rank(RuleFor(job, pods)) <= Rank(JobFailure);
    assert Applies(BadImageName, job, pods) ==> Rank(RuleFor(job, pods)) <= Rank(BadImageName);
  }

  /** Running is recorded exactly when a main container was seen running and nothing of higher priority holds. */
  lemma RunningNeedsARunningMain(job: BatchJob, pods: seq<Pod>, format: Formatter)
    ensures JobVerdict(job, pods, format) == Log(RunningEntry(), false) <==> Decides(MainIsRunning, job, pods)
    ensures JobVerdict(job, pods, format) == Log(RunningEntry(), false) ==> AnyMainRunning(pods)
  {
    RuleForDecides(job, pods, MainIsRunning);
  }

  // ---- outcomes, from the child's fields and the pods ----

  /** The child's last condition is true and of this type. */
  ghost predicate JobSays(job: BatchJob, kind: JobConditionType) {
    exists front, c :: job.conditions == front + [c] && c.kind == kind && c.status == True
  }

  lemma JobSaysLast(job: BatchJob, kind: JobConditionType)
    ensures JobSays(job, kind) <==> LastJobCondition(job, kind)
  {
    if LastJobCondition(job, kind) {
      var n := |job.conditions| - 1;
      assert job.conditions == job.conditions[..n] + [job.conditions[n]];
    }
  }

  ghost predicate ChildSucceeded(job: BatchJob) {
    JobSays(job, JobComplete) && job.succeeded > 0 && (job.active == 0 || job.completion.Some?)
  }

  ghost predicate ChildFailed(job: BatchJob) { JobSays(job, JobFailed) && job.failed > 0 }

  /** Neither a bad image name nor a finished child has decided already. */
  ghost predicate Undecided(job: BatchJob, pods: seq<Pod>) {
    !HasBadImage(pods) && !ChildSucceeded(job) && !ChildFailed(job)
  }

  /** The pods are there, or the child says it completed, and the child has no condition. */
  ghost predicate UnderWay(job: BatchJob, pods: seq<Pod>) {
    (pods != [] || job.completion.Some?) && job.conditions == []
  }

  lemma RuleFacts(job: BatchJob, pods: seq<Pod>)
    ensures HasBadImage(pods) <==> InvalidImage(pods).Some?
    ensures PodsWarn(pods) <==> Scan(pods).kind == Some(Warning)
    ensures ChildSucceeded(job) <==> Applies(JobSuccess, job, pods)
    ensures ChildFailed(job) <==> Applies(JobFailure, job, pods)
    ensures AnyMainRunning(pods) <==> exists p :: p in pods && MainRuns(p)
  {
    InvalidImageExists(pods);
    ScanWarns(pods);
    JobSaysLast(job, JobComplete);
    JobSaysLast(job, JobFailed);
    AnyMainRunningMeaning(pods);
  }

  /** Attempts failed and none is active. */
  ghost predicate Stuck(job: BatchJob, pods: seq<Pod>) { UnderWay(job, pods) && job.failed > 0 && job.active == 0 }

  /** The child is active and a main container runs. */
  ghost predicate Runs(job: BatchJob, pods: seq<Pod>) {
    UnderWay(job, pods) && job.active > 0 && exists p :: p in pods && MainRuns(p)
  }

  /** The row chosen, in terms of the child's fields and the pods. */
  lemma RuleMeaning(job: BatchJob, pods: seq<Pod>)
    ensures var rule, image := RuleFor(job, pods), HasBadImage(pods);
            && (rule == BadImageName <==> image)
            && (rule == JobSuccess <==> !image && ChildSucceeded(job))
            && (rule == JobFailure <==> !image && !ChildSucceeded(job) && ChildFailed(job))
            && (rule == PodWarning <==> Undecided(job, pods) && PodsWarn(pods))
            && (rule == FailedAttempts <==> Undecided(job, pods) && !PodsWarn(pods) && Stuck(job, pods))
            && (rule == MainIsRunning <==> Undecided(job, pods) && !PodsWarn(pods) && Runs(job, pods))
  {
    RuleFacts(job, pods);
  }

  /**
   A Job fails exactly for a bad image name or a child that failed and did not succeed, succeeds exactly with its
   child, warns exactly when the pods do or attempts failed with none active, and runs exactly when a main container
   of an active child runs and no pod warns; in all other cases nothing is logged.
   */
  lemma JobOutcomes(job: BatchJob, pods: seq<Pod>, format: Formatter)
    ensures var v := JobVerdict(job, pods, format);
            var stuck, runs := Stuck(job, pods), Runs(job, pods);
            && (v.Log? && v.entry.kind == Failed <==> HasBadImage(pods) || (!ChildSucceeded(job) && ChildFailed(job)))
            && (v.Log? && v.entry.kind == Succeeded <==> !HasBadImage(pods) && ChildSucceeded(job))
            && (v.Log? && v.entry.kind == Warning <==> Undecided(job, pods) && (PodsWarn(pods) || stuck))
            && (v.Log? && v.entry.kind == Running <==> Undecided(job, pods) && !PodsWarn(pods) && runs)
            && (v.Keep? <==> Undecided(job, pods) && !PodsWarn(pods) && !stuck && !runs)
            && (v.Log? ==> v.entry.kind in {Failed, Succeeded, Warning, Running} && !v.forced)
  {
    RuleMeaning(job, pods);
    RowKinds(RuleFor(job, pods), job, pods, format);
  }

  /** The type each row logs, if any. */
  lemma RowKinds(rule: Rule, job: BatchJob, pods: seq<Pod>, format: Formatter)
    requires Applies(rule, job, pods)
    ensures var v := RowVerdict(rule, job, pods, format);
            && (v.Keep? <==> rule in {NoPodsYet, NothingNew})
            && (v.Log? ==> !v.forced && v.entry.kind == match rule
                                                        case BadImageName => Failed
                                                        case JobSuccess => Succeeded
                                                        case JobFailure => Failed
                                                        case MainIsRunning => Running
                                                        case _ => Warning)
            && !v.Fault?
  {
  }

  /** What the entry says: the bad image, the pods' warning before the failed attempts, or the defaults. */
  lemma JobEntries(job: BatchJob, pods: seq<Pod>, format: Formatter)
    ensures var v := JobVerdict(job, pods, format);
            && (HasBadImage(pods) ==> InvalidImage(pods).Some? && v == FailsImage(InvalidImage(pods).value))
            && (v.Log? && v.entry.kind == Succeeded ==> v.entry == SucceededEntry())
            && (v.Log? && v.entry.kind == Running ==> v.entry == RunningEntry())
            && (v.Log? && v.entry.kind == Warning ==>
                v.entry == if PodsWarn(pods) then WarningEntry(Scan(pods).reason, Scan(pods).message)
                           else Entry(Warning, OPERATOR, WARNING_MESSAGE))
  {
    RuleFacts(job, pods);
    RowKinds(RuleFor(job, pods), job, pods, format);
  }

  /**
   A failed child gives its own reason, which the reason of a pod that failed most often replaces exactly when it is
   the back-off limit and some main container failed.
   */
  lemma JobFailureReasons(job: BatchJob, pods: seq<Pod>, format: Formatter)
    ensures var v := JobVerdict(job, pods, format);
            (!HasBadImage(pods) && v.Log? && v.entry.kind == Failed ==>
                && job.conditions != []
                && var reason := job.conditions[|job.conditions| - 1].reason;
                if reason == "BackoffLimitExceeded" && exists p :: p in pods && MainFailed(p)
                then exists p, i :: WorstPod(pods, p, i) && v.entry.reason == ReasonOf(p.statuses[i])
                else v.entry.reason == reason)
  {
    RuleFacts(job, pods);
    RowKinds(RuleFor(job, pods), job, pods, format);
    WorstExitMeaning(pods, 0);
    CleanExitMeaning(pods);
  }
}
