/**
 The decisions of a pass seen together: what a second status decision over the same observation does, which
 decisions are always reported, and how the steps at the end of a pass make up the end Timing describes.
 */
module Decisions {
  import opened Prelude
  import opened Conditions
  import opened ConditionHistory
  import opened Pods
  import opened Verdicts
  import opened JobStatus
  import opened KfJobStatus
  import opened ServiceStatus
  import opened ClusterStatus
  import opened Timing
  import opened Protocol

  /** One status decision of a pass: what it asks for depends on the list it finds. */
  function Pass(cfg: Config, s: Status, seen: Observation, clock: Clock, now: int): Status {
    Apply(s, Decide(cfg, s.conditions, seen), clock, now)
  }

  /** Two warnings of a KfJob that displace each other. */
  predicate Alternates(cfg: Config, seen: Observation) { cfg.kind == KfJobKind && Competing(seen.kf, seen.pods) }

  /** The second verdict is silent or logs the same entry, and an end state is asked for again. */
  ghost predicate AddsNothing(v: Verdict, again: Verdict) {
    (again.Log? ==> v.Log? && again.entry == v.entry) && (Terminates(v) ==> Terminates(again))
  }

  lemma KfAddsNothing(s: Status, child: KfChild, pods: seq<Pod>, format: Formatter, clock: Clock, now: int)
    requires !Competing(child, pods)
    ensures var v := KfVerdict(s.conditions, child, pods, format);
            AddsNothing(v, KfVerdict(Apply(s, v, clock, now).conditions, child, pods, format))
  {
  }

  /** No decision but that of a KfJob reads the list, and that one only to tell two warnings apart. */
  lemma SecondAddsNothing(cfg: Config, s: Status, seen: Observation, clock: Clock, now: int)
    requires !Alternates(cfg, seen)
    ensures AddsNothing(Decide(cfg, s.conditions, seen), Decide(cfg, Pass(cfg, s, seen, clock, now).conditions, seen))
  {
    if cfg.kind == KfJobKind {
      KfAddsNothing(s, seen.kf, seen.pods, cfg.format, clock, now);
    }
  }

  /** Asking again for what is there changes nothing and is reported only if forced; an end state is renewed. */
  lemma AskedAgain(s: Status, v: Verdict, again: Verdict, c1: Clock, n1: int, c2: Clock, n2: int)
    requires AddsNothing(v, again)
    ensures var once := Apply(s, v, c1, n1);
            && (!Terminates(v) ==> Apply(once, again, c2, n2) == once)
            && (Terminates(v) && c1.update < c2.update ==> Apply(once, again, c2, n2).conditions != once.conditions)
            && (Updates(once, again) <==> Terminates(v) || (again.Log? && again.forced))
  {
    var once := Apply(s, v, c1, n1);
    if Terminates(v) {
      var l, l' := once.conditions, Apply(once, again, c2, n2).conditions;
      assert l[|l| - 1].updated == c1.update && l'[|l'| - 1].updated == c2.update;
    } else if again.Log? {
      LoggedTwice(s.conditions, v.entry, c1, c2);
    }
  }

  /**
   For a fixed observation, a second status decision of any kind changes nothing if the first ended nothing and no
   two warnings of a KfJob compete, and at a later time only then; and it reports an update, so that the status is
   written and pushed again, exactly when it is not so settled or its verdict is one that is always reported.
   */
  lemma DecisionSettles(cfg: Config, s: Status, seen: Observation, c1: Clock, n1: int, c2: Clock, n2: int)
    ensures var v, once := Decide(cfg, s.conditions, seen), Pass(cfg, s, seen, c1, n1);
            var again, twice := Decide(cfg, once.conditions, seen), Pass(cfg, once, seen, c2, n2);
            var settled := !Terminates(v) && !Alternates(cfg, seen);
            && (settled ==> twice == once)
            && (c1.update < c2.update ==> (twice.conditions == once.conditions <==> settled))
            && (Updates(once, again) <==> !settled || (again.Log? && again.forced))
  {
    var v, once := Decide(cfg, s.conditions, seen), Pass(cfg, s, seen, c1, n1);
    if Alternates(cfg, seen) {
      AlternatingPass(cfg, s, seen, c1, n1, c2, n2);
    } else {
      SecondAddsNothing(cfg, s, seen, c1, n1);
      AskedAgain(s, v, Decide(cfg, once.conditions, seen), c1, n1, c2, n2);
    }
  }

  lemma AlternatingPass(cfg: Config, s: Status, seen: Observation, c1: Clock, n1: int, c2: Clock, n2: int)
    requires Alternates(cfg, seen)
    ensures var once := Pass(cfg, s, seen, c1, n1);
            && Pass(cfg, once, seen, c2, n2).conditions != once.conditions
            && Updates(once, Decide(cfg, once.conditions, seen))
  {
    assert KfPass(s, seen.kf, seen.pods, cfg.format, c1).conditions == Pass(cfg, s, seen, c1, n1).conditions;
    var once := Pass(cfg, s, seen, c1, n1);
    CompetingPassSwaps(s, seen.kf, seen.pods, cfg.format, c1);
    CompetingPassSwaps(once, seen.kf, seen.pods, cfg.format, c2);
    assert KfPass(once, seen.kf, seen.pods, cfg.format, c2).conditions == Pass(cfg, once, seen, c2, n2).conditions;
  }

  // ---- which verdicts are always reported ----

  ghost predicate Says(v: Verdict, kind: ConditionType) { v.Log? && v.entry.kind == kind }

  lemma JobIsNeverForced(job: BatchJob, pods: seq<Pod>, format: Formatter)
    ensures var v := JobVerdict(job, pods, format); v.Log? ==> !v.forced
  {
  }

  /** A KfJob always reports running and success, and a restart that no new pod warning displaces. */
  lemma KfForced(conditions: seq<Condition>, child: KfChild, pods: seq<Pod>, format: Formatter)
    ensures var v := KfVerdict(conditions, child, pods, format);
            && (Says(v, Running) || Says(v, Succeeded) ==> v.forced)
            && (Says(v, Failed) ==> !v.forced)
            && (Says(v, Warning) ==> (v.forced <==> LastKfIs(child, KfRestarting) && !PodsWarnAnew(conditions, pods)))
  {
    if LastKf(child).Some? {
      RestartOutcomes(conditions, LastKf(child).value, pods);
    }
  }

  lemma ServiceForced(d: Deployment, pods: seq<Pod>)
    ensures var v := DeploymentVerdict(d, pods);
            && (Says(v, Running) ==> v.forced) && (Says(v, Failed) ==> !v.forced)
            && (Says(v, Warning) ==> (v.forced <==> !PodsWarn(pods)))
  {
    ScanWarns(pods);
  }

  lemma PhaseForced(phase: DaskPhase, health: Health, pods: seq<Pod>, deployments: seq<seq<DeploymentCondition>>)
    ensures var v := PhaseVerdict(phase, health, pods, deployments);
            v.Log? ==> (v.forced <==> v.entry.kind in {Starting, Running, Succeeded})
  {
  }

  lemma DaskForced(child: DaskChild, pods: seq<Pod>, deployments: seq<seq<DeploymentCondition>>)
    ensures var v := DaskVerdict(child, pods, deployments);
            v.Log? ==> (v.forced <==> v.entry.kind in {Starting, Running, Succeeded})
  {
    if child.DaskReported? {
      PhaseForced(child.phase, Scan(pods), pods, deployments);
    }
  }

  lemma RayForced(child: RayChild, pods: seq<Pod>)
    ensures var v := RayVerdict(child, pods); v.Log? ==> (v.forced <==> v.entry.kind == Running)
  {
  }

  /**
   Which verdicts are reported even when nothing changed: Running for every kind but Job; a Service warning exactly
   when the pods do not warn; never anything of a Job, a cluster's warning, or a failure.
   */
  lemma ForcedExactly(cfg: Config, conditions: seq<Condition>, seen: Observation)
    ensures var v := Decide(cfg, conditions, seen);
            && (Says(v, Running) ==> (v.forced <==> cfg.kind != JobKind))
            && (Says(v, Failed) || cfg.kind == JobKind ==> v.Log? ==> !v.forced)
            && (Says(v, Warning) && cfg.kind == ServiceKind ==> (v.forced <==> !PodsWarn(seen.pods)))
            && (Says(v, Warning) && Clustered(cfg.kind) ==> !v.forced)
  {
    match cfg.kind
    case JobKind => JobIsNeverForced(seen.job, seen.pods, cfg.format);
    case KfJobKind => KfForced(conditions, seen.kf, seen.pods, cfg.format);
    case ServiceKind => ServiceForced(seen.deployment, seen.pods);
    case DaskKind => DaskForced(seen.dask, seen.pods, seen.deployments);
    case RayKind => RayForced(seen.ray, seen.pods);
  }

  /** Only for a KfJob could the list matter to whether an operation runs, and there it does not. */
  lemma RunningIgnoresList(cfg: Config, c1: seq<Condition>, c2: seq<Condition>, seen: Observation)
    ensures Says(Decide(cfg, c1, seen), Running) <==> Says(Decide(cfg, c2, seen), Running)
  {
    if cfg.kind == KfJobKind {
      KfOutcomes(c1, seen.kf, seen.pods, cfg.format);
      KfOutcomes(c2, seen.kf, seen.pods, cfg.format);
    }
  }

  /** An operation that stays Running is reported, so written and pushed, in every pass, unless it is a Job. */
  lemma RunningIsReportedAgain(cfg: Config, s: Status, seen: Observation, clock: Clock, now: int)
    requires Says(Decide(cfg, s.conditions, seen), Running)
    ensures var once := Pass(cfg, s, seen, clock, now);
            && Pass(cfg, once, seen, clock, now) == once
            && (Updates(once, Decide(cfg, once.conditions, seen)) <==> cfg.kind != JobKind)
  {
    var once := Pass(cfg, s, seen, clock, now);
    if cfg.kind == KfJobKind {
      KfOutcomes(s.conditions, seen.kf, seen.pods, cfg.format);
    }
    DecisionSettles(cfg, s, seen, clock, now, clock, now);
    RunningIgnoresList(cfg, s.conditions, once.conditions, seen);
    ForcedExactly(cfg, once.conditions, seen);
  }

  /** A settled Job reports nothing any more, so its status is neither written nor pushed again. */
  lemma SettledJobIsQuiet(cfg: Config, s: Status, seen: Observation, clock: Clock, now: int)
    requires cfg.kind == JobKind
    ensures var once := Pass(cfg, s, seen, clock, now);
            Updates(once, Decide(cfg, once.conditions, seen)) <==> Terminates(Decide(cfg, s.conditions, seen))
  {
    DecisionSettles(cfg, s, seen, clock, now, clock, now);
    JobIsNeverForced(seen.job, seen.pods, cfg.format);
  }

  // ---- the end of a pass, step by step ----

  /** What the end of this worker's pass is about, from the answers to its last two calls. */
  function EndingOf(cfg: Config, wk: Worker, exit: Outcome, cull: Outcome): Ending {
    if cfg.kind != ServiceKind then CLUSTER_ENDING
    else
      var v := ExitVerdict(exit.seen.pods, cfg.limits.replicas, cfg.limits.backoff, cfg.exitFormat);
      Ending(cfg.labelled && v.Log?, cfg.limits.timeout, LastIs(wk.inst.status.conditions, Running), cull.probe)
  }

  /** The steps from the deadline check on, error-free, up to the first that writes, deletes or ends the pass. */
  function EndSteps(cfg: Config, wk: Worker, check: Outcome, exit: Outcome, cull: Outcome): Worker
    requires wk.pc.Deadline?
  {
    var checked := DeadlineChecked(cfg, wk, check);
    if !checked.pc.ExitCheck? then checked
    else
      var exited := ExitChecked(cfg, checked, exit);
      if !exited.pc.CullCheck? then exited else ResumeService(cfg, exited, cull)
  }

  /** The step machine ends an error-free pass as FinishOf says: in the same case, with the same write or delete. */
  lemma EndStepsFinish(cfg: Config, wk: Worker, check: Outcome, exit: Outcome, cull: Outcome)
    requires wk.pc.Deadline? && !Marking(cfg.kind)
    ensures var s, last := wk.inst.status, EndSteps(cfg, wk, check, exit, cull);
            match FinishOf(cfg.limits.deadline, s.start, Done(s.conditions), EndingOf(cfg, wk, exit, cull),
                           check.clock.before, cull.clock.before)
            case Finished => last == wk.(pc := END)
            case DeadlineStop =>
              last == Recording(wk, DeadlineEntry(), check.clock, None, Push(Delete(END, Overdue)), END)
            case ExitEnd => last.pc == Write(Push(END), END) && Done(last.inst.status.conditions)
            case Culled(_) => last == wk.(pc := Delete(END, Inactive))
            case Open(_) => last == wk.(pc := END)
  {
    var s := wk.inst.status;
    var v := ExitVerdict(exit.seen.pods, cfg.limits.replicas, cfg.limits.backoff, cfg.exitFormat);
    if cfg.kind == ServiceKind && cfg.labelled && v.Log? {
      ExitIsDone(s, v, exit.clock);
    }
  }

  /** Whatever the list, logging an end state leaves it done. */
  lemma ExitIsDone(s: Status, v: Verdict, clock: Clock)
    requires Terminates(v)
    ensures Done(Record(s, v.entry, clock, Some(clock.before)).conditions)
  {
    var l := Logged(s.conditions, v.entry, clock);
    WithoutMembers(s.conditions, v.entry.kind);
    TailIsHad(Without(s.conditions, v.entry.kind), l[|l| - 1]);
  }

  lemma {:induction false} TailIsHad(front: seq<Condition>, c: Condition)
    requires c.status == True && forall d :: d in front ==> d.kind != c.kind
    ensures Has(front + [c], c.kind)
  {
    if front != [] {
      assert (front + [c])[1..] == front[1..] + [c];
      TailIsHad(front[1..], c);
    }
  }
}
