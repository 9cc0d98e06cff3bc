/** The Kubeflow job status decision (internal/controller/kfjob/kfcommon.go, reconcileKfJobStatus). */
module KfJobStatus {
  import opened Prelude
  import opened Conditions
  import opened ConditionHistory
  import opened Pods
  import opened Verdicts

  datatype KfType = KfCreated | KfRunning | KfRestarting | KfSucceeded | KfFailed | OtherKf

  datatype KfCondition = KfCondition(kind: KfType, status: Truth, reason: string, message: string)

  /** The status field of the child: absent, not reachable (the lookup reports an error), not convertible, or read. */
  datatype KfChild = NoStatus | Malformed | Unconvertible | Reported(conditions: seq<KfCondition>)

  function LastKf(child: KfChild): Option<KfCondition> {
    if child.Reported? && child.conditions != [] then Some(child.conditions[|child.conditions| - 1]) else None
  }

  function Attempts(exit: Option<ExitStatus>): Option<int32> {
    if exit.Some? && exit.value.FailedAttempts() > 0 then Some(exit.value.FailedAttempts()) else None
  }

  /** A pod warning, when the scan found one. */
  function PodVerdict(pods: seq<Pod>): Verdict {
    if Scan(pods).kind == Some(Warning) then Warns(Scan(pods)) else Keep
  }

  /** A pod warning that is news to the list wins over a restart report; one already at the tail gives way to it. */
  function RestartVerdict(conditions: seq<Condition>, last: KfCondition, pods: seq<Pod>): Verdict {
    if PodVerdict(pods).Log? && LogChanges(conditions, PodVerdict(pods).entry) then PodVerdict(pods)
    else if last.kind == KfRestarting then Log(WarningEntry(last.reason, last.message), true)
    else Keep
  }

  function KfVerdict(conditions: seq<Condition>, child: KfChild, pods: seq<Pod>, format: Formatter): Verdict {
    if InvalidImage(pods).Some? then FailsImage(InvalidImage(pods).value)
    else if child.Malformed? then Keep
    else if child.Unconvertible? then Fault
    else if LastKf(child).None? then PodVerdict(pods)
    else TrainingVerdict(conditions, LastKf(child).value, pods, format)
  }

  function TrainingVerdict(conditions: seq<Condition>, last: KfCondition, pods: seq<Pod>, format: Formatter): Verdict {
    match last.kind
    case KfRunning => Log(RunningEntry(), true)
    case KfCreated => Log(RunningEntry(), true)
    case KfSucceeded => Log(SucceededEntry(), true)
    case KfFailed => Log(Entry(Failed, last.reason, format(last.message, ExitOf(pods), Attempts(ExitOf(pods)))), false)
    case _ => RestartVerdict(conditions, last, pods)
  }

  /** The closure that logs a pod warning. */
  method LogPodWarning(status: OperationStatus, health: Health, ghost pods: seq<Pod>, clock: Clock)
    returns (updated: bool)
    requires health == Scan(pods)
    modifies status
    ensures status.Value() == Apply(old(status.Value()), PodVerdict(pods), clock, clock.before)
    ensures updated == Updates(old(status.Value()), PodVerdict(pods))
  {
    if health.kind != Some(Warning) {
      return false;
    }
    updated := status.LogWarning(health.reason, health.message, clock);
  }

  /** The restart report is the only forced warning; it is logged by a second Log call, with its own clock readings. */
  function ClockOf(v: Verdict, first: Clock, second: Clock): Clock {
    if v.Log? && v.forced && v.entry.kind == Warning then second else first
  }

  /** The end of the cascade: a pod warning that is news, else the restart report. */
  method LogRestart(
      status: OperationStatus, last: KfCondition, health: Health, ghost pods: seq<Pod>, first: Clock, second: Clock)
    returns (updated: bool)
    requires health == Scan(pods)
    modifies status
    ensures var v := RestartVerdict(old(status.conditions), last, pods);
            && status.Value() == Apply(old(status.Value()), v, ClockOf(v, first, second), first.before)
            && updated == Updates(old(status.Value()), v)
  {
    updated := LogPodWarning(status, health, pods, first);
    if updated {
      return;
    }
    if last.kind == KfRestarting {
      var _ := status.LogWarning(last.reason, last.message, second);
      return true;
    }
  }

  /** Two Log calls may follow one another here; the first then changed nothing. */
  method ReconcileKfJobStatus(
      status: OperationStatus, child: KfChild, pods: seq<Pod>, format: Formatter, clock: Clock, second: Clock)
    returns (updated: bool, fault: bool)
    modifies status
    ensures var v := KfVerdict(old(status.conditions), child, pods, format);
            && status.Value() == Apply(old(status.Value()), v, ClockOf(v, clock, second), clock.before)
            && fault == v.Fault?
            && updated == Updates(old(status.Value()), v)
  {
    fault := false;
    ghost var v := KfVerdict(status.conditions, child, pods, format);
    var image := GetInvalidImageName(pods);
    if image.Some? {
      assert v == FailsImage(image.value) && ClockOf(v, clock, second) == clock;
      updated := status.LogFinal(Entry(Failed, INVALID_IMAGE, image.value), clock, clock.before);
      return;
    }
    var health := HasUnschedulablePods(pods);
    var exit := GetMainContainerExitStatus(pods);
    match child {
      case Malformed =>
        assert v == Keep;
        return false, false;
      case NoStatus =>
        assert v == PodVerdict(pods) && ClockOf(v, clock, second) == clock;
        updated := LogPodWarning(status, health, pods, clock);
        return;
      case Unconvertible =>
        assert v == Fault;
        return false, true;
      case Reported(reported) =>
        if |reported| == 0 {
          assert v == PodVerdict(pods) && ClockOf(v, clock, second) == clock;
          updated := LogPodWarning(status, health, pods, clock);
          return;
        }
        assert v == TrainingVerdict(status.conditions, reported[|reported| - 1], pods, format);
        updated := LogTraining(status, reported[|reported| - 1], health, exit, pods, format, clock, second);
    }
  }

  /** The part of the cascade that follows the last training condition. */
  method LogTraining(
      status: OperationStatus, last: KfCondition, health: Health, exit: Option<ExitStatus>, ghost pods: seq<Pod>,
      format: Formatter, clock: Clock, second: Clock)
    returns (updated: bool)
    requires health == Scan(pods) && exit == ExitOf(pods)
    modifies status
    ensures var v := TrainingVerdict(old(status.conditions), last, pods, format);
            && status.Value() == Apply(old(status.Value()), v, ClockOf(v, clock, second), clock.before)
            && updated == Updates(old(status.Value()), v)
  {
    if last.kind == KfRunning || last.kind == KfCreated {
      var _ := status.LogCondition(RunningEntry(), clock);
      return true;
    }
    if last.kind == KfSucceeded {
      var _ := status.LogFinal(SucceededEntry(), clock, clock.before);
      return true;
    }
    if last.kind == KfFailed {
      var message := format(last.message, exit, Attempts(exit));
      updated := status.LogFinal(Entry(Failed, last.reason, message), clock, clock.before);
      if updated {
        return;
      }
    }
    updated := LogRestart(status, last, health, pods, clock, second);
  }

  /** The last training condition is of this type. */
  ghost predicate LastKfIs(child: KfChild, kind: KfType) { LastKf(child).Some? && LastKf(child).value.kind == kind }

  /** The child reports no training condition yet. */
  ghost predicate Unreported(child: KfChild) { child.NoStatus? || child == Reported([]) }

  /** The pods warn, and the list does not end in that warning already. */
  ghost predicate PodsWarnAnew(conditions: seq<Condition>, pods: seq<Pod>) {
    PodsWarn(pods) && !Repeats(conditions, WarningEntry(Scan(pods).reason, Scan(pods).message))
  }

  /** The end of the cascade only warns: for pods that warn anew, else for a restart, which is always reported. */
  lemma RestartOutcomes(conditions: seq<Condition>, last: KfCondition, pods: seq<Pod>)
    ensures var v, anew := RestartVerdict(conditions, last, pods), PodsWarnAnew(conditions, pods);
            && !v.Fault? && (v.Log? <==> anew || last.kind == KfRestarting)
            && (v.Log? ==> v.entry.kind == Warning && (v.forced <==> !anew))
  {
    ScanWarns(pods);
  }

  /**
   A KfJob fails, succeeds and runs exactly as its last training condition says, a bad image name apart, so a pod
   warning never stands in the way of these. It warns exactly when the child restarts, when the pods warn before
   any training condition is reported, or when they warn anew beside one that neither runs nor ends.
   */
  lemma KfOutcomes(conditions: seq<Condition>, child: KfChild, pods: seq<Pod>, format: Formatter)
    ensures var v, image := KfVerdict(conditions, child, pods, format), HasBadImage(pods);
            && (v.Log? && v.entry.kind == Failed <==> image || LastKfIs(child, KfFailed))
            && (v.Log? && v.entry.kind == Succeeded <==> !image && LastKfIs(child, KfSucceeded))
            && (v.Log? && v.entry.kind == Running <==>
                !image && (LastKfIs(child, KfRunning) || LastKfIs(child, KfCreated)))
            && (v.Log? && v.entry.kind == Warning <==>
                !image && (|| LastKfIs(child, KfRestarting)
                           || (Unreported(child) && PodsWarn(pods))
                           || (LastKfIs(child, OtherKf) && PodsWarnAnew(conditions, pods))))
            && (v.Log? ==> v.entry.kind in {Failed, Succeeded, Running, Warning})
            && (v.Fault? <==> !image && child.Unconvertible?)
  {
    InvalidImageExists(pods);
    if LastKf(child).None? {
      ScanWarns(pods);
    } else {
      RestartOutcomes(conditions, LastKf(child).value, pods);
    }
  }

  /** What the entry says: the bad image, the training condition's own words, or the pods' warning while it is new. */
  lemma KfEntries(conditions: seq<Condition>, child: KfChild, pods: seq<Pod>, format: Formatter)
    ensures var v := KfVerdict(conditions, child, pods, format);
            && (HasBadImage(pods) ==> InvalidImage(pods).Some? && v == FailsImage(InvalidImage(pods).value))
            && (v.Log? && v.entry.kind == Running ==> v.entry == RunningEntry())
            && (v.Log? && v.entry.kind == Succeeded ==> v.entry == SucceededEntry())
            && (!HasBadImage(pods) && v.Log? && v.entry.kind == Failed ==>
                LastKf(child).Some? && v.entry.reason == LastKf(child).value.reason)
            && (v.Log? && v.entry.kind == Warning ==>
                if Unreported(child) || PodsWarnAnew(conditions, pods)
                then v.entry == WarningEntry(Scan(pods).reason, Scan(pods).message)
                else LastKf(child).Some? && v.entry == RestartEntry(child))
  {
    InvalidImageExists(pods);
    ScanWarns(pods);
    if LastKf(child).Some? {
      RestartOutcomes(conditions, LastKf(child).value, pods);
    }
  }

  // ---- repeated passes over one observation ----

  function KfPass(s: Status, child: KfChild, pods: seq<Pod>, format: Formatter, clock: Clock): Status {
    Apply(s, KfVerdict(s.conditions, child, pods, format), clock, clock.before)
  }

  /** A series of passes over one observation: the status before each and after the last. */
  ghost predicate ArePasses(
      states: seq<Status>, child: KfChild, pods: seq<Pod>, format: Formatter, clocks: seq<Clock>)
  {
    && |states| == |clocks| + 1
    && (forall i {:trigger clocks[i]} :: 0 <= i < |clocks| ==>
          states[i + 1] == KfPass(states[i], child, pods, format, clocks[i]))
  }

  /** The child is restarting and the pods carry a different warning of their own. */
  predicate Competing(child: KfChild, pods: seq<Pod>) {
    && InvalidImage(pods).None?
    && LastKf(child).Some? && LastKf(child).value.kind == KfRestarting
    && PodVerdict(pods).Log? && PodVerdict(pods).entry != RestartEntry(child)
  }

  function RestartEntry(child: KfChild): Entry
    requires LastKf(child).Some?
  {
    WarningEntry(LastKf(child).value.reason, LastKf(child).value.message)
  }

  /** The two warnings take turns: each pass swaps the tail, and the tail is always one of the two. */
  lemma CompetingPassSwaps(s: Status, child: KfChild, pods: seq<Pod>, format: Formatter, clock: Clock)
    requires Competing(child, pods)
    ensures var next := KfPass(s, child, pods, format, clock).conditions;
            Repeats(next, if Repeats(s.conditions, PodVerdict(pods).entry) then RestartEntry(child)
                          else PodVerdict(pods).entry)
  {
  }

  /**
   For a fixed observation a second pass leaves the list unchanged exactly when no two warnings compete,
   provided the first pass ended nothing.
   */
  lemma KfDecisionIdempotent(
      s: Status, child: KfChild, pods: seq<Pod>, format: Formatter, c1: Clock, c2: Clock)
    requires !Terminates(KfVerdict(s.conditions, child, pods, format))
    ensures var once := KfPass(s, child, pods, format, c1);
            KfPass(once, child, pods, format, c2).conditions == once.conditions <==> !Competing(child, pods)
  {
    var once := KfPass(s, child, pods, format, c1);
    if Competing(child, pods) {
      CompetingPassSwaps(s, child, pods, format, c1);
      CompetingPassSwaps(once, child, pods, format, c2);
    } else {
      var v := KfVerdict(s.conditions, child, pods, format);
      ApplyTwice(s, v, c1, c1.before, c2, c2.before);
    }
  }

  /** Which of the two warnings holds the tail. */
  ghost predicate Holds(s: Status, child: KfChild, pods: seq<Pod>, pod: bool)
    requires Competing(child, pods)
  {
    Repeats(s.conditions, if pod then PodVerdict(pods).entry else RestartEntry(child))
  }

  lemma {:induction false} SwapStep(s: Status, child: KfChild, pods: seq<Pod>, format: Formatter, clock: Clock)
    requires Competing(child, pods)
    ensures var next := KfPass(s, child, pods, format, clock);
            && Holds(next, child, pods, !Holds(s, child, pods, true))
            && Holds(next, child, pods, true) == !Holds(s, child, pods, true)
  {
    CompetingPassSwaps(s, child, pods, format, clock);
  }

  /** Something that flips at every step follows the parity. */
  lemma {:induction false} FlipsFollowParity(turns: seq<bool>, i: nat)
    requires i < |turns| && forall k {:trigger turns[k]} :: 0 < k < |turns| ==> turns[k] != turns[k - 1]
    ensures turns[i] == (turns[0] == (i % 2 == 0))
  {
    if i > 0 {
      FlipsFollowParity(turns[..i], i - 1);
    }
  }

  /** Which warning holds the tail in each state of a series of passes. */
  ghost function Turns(states: seq<Status>, child: KfChild, pods: seq<Pod>): seq<bool>
    requires Competing(child, pods)
  {
    seq(|states|, i requires 0 <= i < |states| => Holds(states[i], child, pods, true))
  }

  lemma {:induction false} TurnFlips(
      s: Status, t: Status, child: KfChild, pods: seq<Pod>, format: Formatter, clock: Clock)
    requires Competing(child, pods) && t == KfPass(s, child, pods, format, clock)
    ensures var pod := Holds(t, child, pods, true); pod != Holds(s, child, pods, true) && Holds(t, child, pods, pod)
  {
    SwapStep(s, child, pods, format, clock);
  }

  lemma {:induction false} TurnsFlip(
      states: seq<Status>, child: KfChild, pods: seq<Pod>, format: Formatter, clocks: seq<Clock>, i: nat)
    requires Competing(child, pods) && ArePasses(states, child, pods, format, clocks) && 0 < i <= |clocks|
    ensures var turns := Turns(states, child, pods);
            turns[i] != turns[i - 1] && Holds(states[i], child, pods, turns[i])
  {
    TurnFlips(states[i - 1], states[i], child, pods, format, clocks[i - 1]);
  }

  /** With competing warnings the list never settles: after any number of passes the tail follows the parity. */
  lemma CompetingWarningsAlternate(
      states: seq<Status>, child: KfChild, pods: seq<Pod>, format: Formatter, clocks: seq<Clock>, i: nat)
    requires Competing(child, pods) && ArePasses(states, child, pods, format, clocks) && 0 < i <= |clocks|
    ensures Holds(states[i], child, pods, Holds(states[0], child, pods, true) == (i % 2 == 0))
  {
    var turns := Turns(states, child, pods);
    forall k | 0 < k < |turns|
      ensures turns[k] != turns[k - 1] && Holds(states[k], child, pods, turns[k])
    {
      TurnsFlip(states, child, pods, format, clocks, k);
    }
    FlipsFollowParity(turns, i);
  }
}
