/** Observation of an operation's pods (internal/helpers/managers/pods.go): loops over pod lists and what they find. */
module Pods {
  import opened Prelude
  import opened Conditions

  datatype Terminated = Terminated(exitCode: int32, reason: string, message: string)

  datatype Waiting = Waiting(reason: string, message: string)

  /** The three state pointers of a container status; nothing stops several from being set. */
  datatype ContainerState = ContainerState(waiting: Option<Waiting>, running: bool, terminated: Option<Terminated>)

  datatype ContainerStatus = ContainerStatus(
    name: string, ready: bool, state: ContainerState, lastTermination: Option<Terminated>, restartCount: int32)

  datatype Phase = PodPending | PodRunning | PodSucceeded | PodFailed | PodUnschedulable | OtherPhase(name: string)

  datatype PodCondition = PodCondition(isReady: bool, status: Truth, reason: string, message: string)

  /** `containers` holds the container names of the pod spec; `conditions` is None when the field is unset. */
  datatype Pod = Pod(
    name: string, labels: map<string, string>, containers: seq<string>, phase: Phase, message: string,
    conditions: Option<seq<PodCondition>>, initStatuses: seq<ContainerStatus>, statuses: seq<ContainerStatus>)

  datatype ExitStatus = ExitStatus(
    podName: string, containerName: string, exitCode: int32, reason: string, message: string,
    restartCount: int32, currentExitSeen: bool)
  {
    function FailedAttempts(): int32 {
      if currentExitSeen then Wrap32(restartCount + 1) else restartCount
    }

    function FailureReason(): string {
      if reason == "" then "ContainerFailed" else reason
    }
  }

  // ---- the main container ----

  function FirstNamed(statuses: seq<ContainerStatus>, name: string): Option<ContainerStatus> {
    if statuses == [] then None
    else if statuses[0].name == name then Some(statuses[0])
    else FirstNamed(statuses[1..], name)
  }

  /** The status of the first container of the spec, or of the first reported one when the spec lists none. */
  function MainStatus(pod: Pod): Option<ContainerStatus> {
    if pod.statuses == [] then None
    else FirstNamed(pod.statuses, if pod.containers == [] then pod.statuses[0].name else pod.containers[0])
  }

  lemma {:induction false} FirstNamedAt(statuses: seq<ContainerStatus>, name: string, i: nat)
    requires i <= |statuses|
    requires forall j :: 0 <= j < i ==> statuses[j].name != name
    ensures i < |statuses| && statuses[i].name == name ==> FirstNamed(statuses, name) == Some(statuses[i])
    ensures i == |statuses| ==> FirstNamed(statuses, name) == None
  {
    if i > 0 {
      FirstNamedAt(statuses[1..], name, i - 1);
    }
  }

  method GetMainContainerStatus(pod: Pod) returns (r: Option<ContainerStatus>)
    ensures r == MainStatus(pod)
  {
    if |pod.statuses| == 0 {
      return None;
    }
    var name := pod.statuses[0].name;
    if |pod.containers| > 0 {
      name := pod.containers[0];
    }
    for i := 0 to |pod.statuses|
      invariant forall j :: 0 <= j < i ==> pod.statuses[j].name != name
    {
      if pod.statuses[i].name == name {
        FirstNamedAt(pod.statuses, name, i);
        return Some(pod.statuses[i]);
      }
    }
    FirstNamedAt(pod.statuses, name, |pod.statuses|);
    return None;
  }

  predicate MainRunning(pod: Pod) {
    var main := MainStatus(pod);
    main.Some? && main.value.state.running
  }

  predicate AnyMainRunning(pods: seq<Pod>) {
    exists p :: p in pods && MainRunning(p)
  }

  method IsMainContainerRunning(pods: seq<Pod>) returns (r: bool)
    ensures r == AnyMainRunning(pods)
  {
    for i := 0 to |pods|
      invariant forall j :: 0 <= j < i ==> !MainRunning(pods[j])
    {
      var status := GetMainContainerStatus(pods[i]);
      if status.Some? && status.value.state.running {
        assert pods[i] in pods && MainRunning(pods[i]);
        return true;
      }
    }
    return false;
  }

  // ---- container exits ----

  /**
   The exit that counts for a container: the current one; behind a running container only a failed
   previous one; behind a waiting container any previous one.
   */
  function CountedExit(cs: ContainerStatus): Option<Terminated> {
    if cs.state.terminated.Some? then cs.state.terminated
    else if cs.state.running && cs.lastTermination.Some? && cs.lastTermination.value.exitCode == 0 then None
    else if cs.state.running || cs.state.waiting.Some? then cs.lastTermination
    else None
  }

  function PodExit(pod: Pod): Option<ExitStatus> {
    var main := MainStatus(pod);
    if main.None? || CountedExit(main.value).None? then None
    else
      var exit := CountedExit(main.value).value;
      Some(ExitStatus(pod.name, main.value.name, exit.exitCode, exit.reason, exit.message,
                      main.value.restartCount, main.value.state.terminated.Some?))
  }

  method GetPodMainContainerExitStatus(pod: Pod) returns (r: Option<ExitStatus>)
    ensures r == PodExit(pod)
  {
    var status := GetMainContainerStatus(pod);
    if status.None? {
      return None;
    }
    var cs := status.value;
    var currentExitSeen := false;
    var termination: Option<Terminated> := None;
    if cs.state.terminated.Some? {
      termination := cs.state.terminated;
      currentExitSeen := true;
    } else if cs.state.running {
      if cs.lastTermination.Some? && cs.lastTermination.value.exitCode != 0 {
        termination := cs.lastTermination;
      }
    } else if cs.state.waiting.Some? {
      termination := cs.lastTermination;
    }
    if termination.None? {
      return None;
    }
    var t := termination.value;
    return Some(ExitStatus(pod.name, cs.name, t.exitCode, t.reason, t.message, cs.restartCount, currentExitSeen));
  }

  predicate Failing(e: Option<ExitStatus>) { e.Some? && e.value.exitCode != 0 }

  predicate Clean(e: Option<ExitStatus>) { e.Some? && e.value.exitCode == 0 }

  predicate FailedExit(pod: Pod) { Failing(PodExit(pod)) }

  predicate CleanExit(pod: Pod) { Clean(PodExit(pod)) }

  function Exits(pods: seq<Pod>): seq<Option<ExitStatus>> {
    seq(|pods|, i requires 0 <= i < |pods| => PodExit(pods[i]))
  }

  /** Exit i is the first of the failures with the most attempts. */
  ghost predicate WorstFailure(exits: seq<Option<ExitStatus>>, i: nat) {
    && i < |exits| && Failing(exits[i])
    && (forall j :: 0 <= j < |exits| && Failing(exits[j]) ==>
          exits[j].value.FailedAttempts() <= exits[i].value.FailedAttempts())
    && (forall j :: 0 <= j < i && Failing(exits[j]) ==>
          exits[j].value.FailedAttempts() < exits[i].value.FailedAttempts())
  }

  ghost predicate FirstClean(exits: seq<Option<ExitStatus>>, i: nat) {
    i < |exits| && Clean(exits[i]) && forall j :: 0 <= j < i ==> !Clean(exits[j])
  }

  /** The exit reported for a pod list: the worst failure, else the first clean exit, else nothing. */
  ghost predicate ReportsExit(exits: seq<Option<ExitStatus>>, r: Option<ExitStatus>) {
    if exists i :: 0 <= i < |exits| && Failing(exits[i]) then
      exists i: nat :: WorstFailure(exits, i) && r == exits[i]
    else if exists i :: 0 <= i < |exits| && Clean(exits[i]) then
      exists i: nat :: FirstClean(exits, i) && r == exits[i]
    else r == None
  }

  /** The failed exit the loop holds after a list of pods. */
  function FailedOf(exits: seq<Option<ExitStatus>>): Option<ExitStatus> {
    if exits == [] then None
    else
      var held, last := FailedOf(exits[..|exits| - 1]), exits[|exits| - 1];
      if Failing(last) && (held.None? || last.value.FailedAttempts() > held.value.FailedAttempts()) then last else held
  }

  /** The clean exit the loop holds after a list of pods. */
  function CleanOf(exits: seq<Option<ExitStatus>>): Option<ExitStatus> {
    if exits == [] then None
    else
      var held, last := CleanOf(exits[..|exits| - 1]), exits[|exits| - 1];
      if held.None? && Clean(last) then last else held
  }

  function ExitOf(pods: seq<Pod>): Option<ExitStatus> {
    if FailedOf(Exits(pods)).Some? then FailedOf(Exits(pods)) else CleanOf(Exits(pods))
  }

  method GetMainContainerExitStatus(pods: seq<Pod>) returns (r: Option<ExitStatus>)
    ensures r == ExitOf(pods)
  {
    var failed: Option<ExitStatus> := None;
    var succeeded: Option<ExitStatus> := None;
    ghost var exits := Exits(pods);
    for i := 0 to |pods|
      invariant failed == FailedOf(exits[..i]) && succeeded == CleanOf(exits[..i])
    {
      assert exits[..i + 1][..i] == exits[..i];
      var status := GetPodMainContainerExitStatus(pods[i]);
      if status.None? {
        continue;
      }
      if status.value.exitCode == 0 {
        if succeeded.None? {
          succeeded := status;
        }
        continue;
      }
      if failed.None? || status.value.FailedAttempts() > failed.value.FailedAttempts() {
        failed := status;
      }
    }
    assert exits[..|pods|] == exits;
    return if failed.Some? then failed else succeeded;
  }

  lemma {:induction false} FailedOfIsWorst(exits: seq<Option<ExitStatus>>) returns (i: nat)
    ensures FailedOf(exits).None? <==> forall j :: 0 <= j < |exits| ==> !Failing(exits[j])
    ensures FailedOf(exits).Some? ==> WorstFailure(exits, i) && FailedOf(exits) == exits[i]
  {
    i := 0;
    if exits != [] {
      var n := |exits| - 1;
      i := FailedOfIsWorst(exits[..n]);
      assert forall j :: 0 <= j < n ==> exits[..n][j] == exits[j];
      var held := FailedOf(exits[..n]);
      if Failing(exits[n]) && (held.None? || exits[n].value.FailedAttempts() > held.value.FailedAttempts()) {
        i := n;
      }
    }
  }

  lemma {:induction false} CleanOfIsFirst(exits: seq<Option<ExitStatus>>) returns (i: nat)
    ensures CleanOf(exits).None? <==> forall j :: 0 <= j < |exits| ==> !Clean(exits[j])
    ensures CleanOf(exits).Some? ==> FirstClean(exits, i) && CleanOf(exits) == exits[i]
  {
    i := 0;
    if exits != [] {
      var n := |exits| - 1;
      i := CleanOfIsFirst(exits[..n]);
      assert forall j :: 0 <= j < n ==> exits[..n][j] == exits[j];
      if CleanOf(exits[..n]).None? && Clean(exits[n]) {
        i := n;
      }
    }
  }

  /** The loop reports exactly the exit the declarative description names. */
  lemma ExitReported(pods: seq<Pod>, r: Option<ExitStatus>)
    ensures ReportsExit(Exits(pods), r) <==> r == ExitOf(pods)
  {
    var exits := Exits(pods);
    var i := FailedOfIsWorst(exits);
    var k := CleanOfIsFirst(exits);
    if ReportsExit(exits, r) {
      if FailedOf(exits).Some? {
        var j: nat :| WorstFailure(exits, j) && r == exits[j];
        assert j == i;
      } else if CleanOf(exits).Some? {
        var j: nat :| FirstClean(exits, j) && r == exits[j];
        assert j == k;
      }
    }
  }

  // ---- invalid image names ----

  const INVALID_IMAGE := "InvalidImageName"

  predicate BadImage(cs: ContainerStatus) {
    cs.state.waiting.Some? && cs.state.waiting.value.reason == INVALID_IMAGE
  }

  function FirstBadImage(statuses: seq<ContainerStatus>): Option<string> {
    if statuses == [] then None
    else if BadImage(statuses[0]) then Some(statuses[0].state.waiting.value.message)
    else FirstBadImage(statuses[1..])
  }

  /** The message of the first container whose image name cannot be parsed, init containers first. */
  function InvalidImage(pods: seq<Pod>): Option<string> {
    if pods == [] then None
    else
      var here := FirstBadImage(pods[0].initStatuses + pods[0].statuses);
      if here.Some? then here else InvalidImage(pods[1..])
  }

  lemma {:induction false} FirstBadImageAt(statuses: seq<ContainerStatus>, i: nat)
    requires i <= |statuses|
    requires forall j :: 0 <= j < i ==> !BadImage(statuses[j])
    ensures i < |statuses| && BadImage(statuses[i]) ==>
              FirstBadImage(statuses) == Some(statuses[i].state.waiting.value.message)
    ensures i == |statuses| ==> FirstBadImage(statuses) == None
  {
    if i > 0 {
      FirstBadImageAt(statuses[1..], i - 1);
    }
  }

  lemma {:induction false} FirstBadImageExists(statuses: seq<ContainerStatus>)
    ensures FirstBadImage(statuses).Some? <==> exists cs :: cs in statuses && BadImage(cs)
  {
    if statuses != [] {
      FirstBadImageExists(statuses[1..]);
      assert statuses == [statuses[0]] + statuses[1..];
    }
  }

  /** Some container of some pod waits on an unparsable image name. */
  ghost predicate HasBadImage(pods: seq<Pod>) {
    exists p, cs :: p in pods && cs in p.initStatuses + p.statuses
                    && cs.state.waiting.Some? && cs.state.waiting.value.reason == "InvalidImageName"
  }

  lemma {:induction false} InvalidImageExists(pods: seq<Pod>)
    ensures InvalidImage(pods).Some? <==> HasBadImage(pods)
  {
    if pods != [] {
      InvalidImageExists(pods[1..]);
      FirstBadImageExists(pods[0].initStatuses + pods[0].statuses);
      assert pods == [pods[0]] + pods[1..];
      if exists cs :: cs in pods[0].initStatuses + pods[0].statuses && BadImage(cs) {
        assert pods[0] in pods;
      }
    }
  }

  lemma {:induction false} InvalidImageAt(pods: seq<Pod>, i: nat)
    requires i <= |pods|
    requires forall j :: 0 <= j < i ==> FirstBadImage(pods[j].initStatuses + pods[j].statuses).None?
    ensures i < |pods| && FirstBadImage(pods[i].initStatuses + pods[i].statuses).Some? ==>
              InvalidImage(pods) == FirstBadImage(pods[i].initStatuses + pods[i].statuses)
    ensures i == |pods| ==> InvalidImage(pods) == None
  {
    if i > 0 {
      InvalidImageAt(pods[1..], i - 1);
    }
  }

  method GetInvalidImageName(pods: seq<Pod>) returns (r: Option<string>)
    ensures r == InvalidImage(pods)
  {
    for i := 0 to |pods|
      invariant forall j :: 0 <= j < i ==> FirstBadImage(pods[j].initStatuses + pods[j].statuses).None?
    {
      var groups := [pods[i].initStatuses, pods[i].statuses];
      ghost var all := pods[i].initStatuses + pods[i].statuses;
      ghost var seen: nat := 0;
      for g := 0 to |groups|
        invariant seen == if g == 0 then 0 else if g == 1 then |pods[i].initStatuses| else |all|
        invariant forall j :: 0 <= j < seen ==> !BadImage(all[j])
      {
        ghost var base := seen;
        for c := 0 to |groups[g]|
          invariant seen == base + c
          invariant forall j :: 0 <= j < seen ==> !BadImage(all[j])
        {
          assert all[base + c] == groups[g][c];
          var cs := groups[g][c];
          if cs.state.waiting.Some? && cs.state.waiting.value.reason == INVALID_IMAGE {
            FirstBadImageAt(all, seen);
            InvalidImageAt(pods, i);
            return Some(cs.state.waiting.value.message);
          }
          seen := seen + 1;
        }
      }
      FirstBadImageAt(all, |all|);
    }
    InvalidImageAt(pods, |pods|);
    return None;
  }

  // ---- pod health ----

  /** The health of a pod list: an optional condition type with its reason and message. */
  datatype Health = Health(kind: Option<ConditionType>, reason: string, message: string)

  const NEUTRAL: Health := Health(None, "", "")

  predicate PullingImage(cs: ContainerStatus) {
    !cs.ready && cs.state.waiting.Some? && cs.state.waiting.value.reason in {"ImagePullBackOff", "ErrImagePull"}
  }

  predicate NotReady(c: PodCondition) {
    c.reason == "Unschedulable" || (c.isReady && c.status == False && c.reason == "ContainersNotReady")
  }

  predicate ExitedBadly(cs: ContainerStatus) {
    cs.state.terminated.Some? && cs.state.terminated.value.exitCode > 0
  }

  function FirstBadExit(statuses: seq<ContainerStatus>): (r: Option<Terminated>)
    ensures r.Some? ==> r.value.exitCode > 0
  {
    if statuses == [] then None
    else if ExitedBadly(statuses[0]) then statuses[0].state.terminated
    else FirstBadExit(statuses[1..])
  }

  function FirstPulling(statuses: seq<ContainerStatus>): Option<Waiting> {
    if statuses == [] then None
    else if PullingImage(statuses[0]) then statuses[0].state.waiting
    else FirstPulling(statuses[1..])
  }

  function FirstNotReady(conditions: seq<PodCondition>): Option<PodCondition> {
    if conditions == [] then None
    else if NotReady(conditions[0]) then Some(conditions[0])
    else FirstNotReady(conditions[1..])
  }

  /** What one pod says on its own; None when it is not decisive and the scan goes on. */
  function PodHealth(pod: Pod): Option<Health> {
    match pod.phase
    case PodFailed =>
      var bad := FirstBadExit(pod.statuses);
      Some(if bad.Some?
           then Health(Some(Failed), bad.value.reason + "ExitCode " + Itoa(bad.value.exitCode), bad.value.message)
           else Health(Some(Failed), "PodFailed", pod.message))
    case PodSucceeded => Some(NEUTRAL)
    case PodRunning => None
    case _ =>
      if pod.conditions.Some? && FirstPulling(pod.initStatuses).Some? then
        Some(Health(Some(Warning), "InitContainerImagePullBackOff", FirstPulling(pod.initStatuses).value.message))
      else if pod.conditions.Some? && FirstPulling(pod.statuses).Some? then
        Some(Health(Some(Warning), "ImagePullBackOff", FirstPulling(pod.statuses).value.message))
      else if pod.conditions.Some? && FirstNotReady(pod.conditions.value).Some? then
        Some(Health(Some(Warning), "ContainersNotReady", FirstNotReady(pod.conditions.value).value.message))
      else if pod.phase == PodUnschedulable then
        Some(Health(Some(Warning), "PodReasonUnschedulable", "Pod is unschedulable"))
      else if pod.phase == PodPending && pod.conditions.None? then
        Some(Health(Some(Warning), "PodPending", "Pod is still pending without conditions"))
      else None
  }

  /** The verdict of the first decisive pod; no pods at all means the operation is still starting. */
  function Scan(pods: seq<Pod>): Health {
    if pods == [] then Health(Some(Starting), "PodNotReady", "Operation has no pods yet.")
    else if PodHealth(pods[0]).Some? then PodHealth(pods[0]).value
    else if |pods| == 1 then NEUTRAL
    else Scan(pods[1..])
  }

  lemma {:induction false} ScanAt(pods: seq<Pod>, i: nat)
    requires pods != [] && i <= |pods|
    requires forall j :: 0 <= j < i ==> PodHealth(pods[j]).None?
    ensures i < |pods| && PodHealth(pods[i]).Some? ==> Scan(pods) == PodHealth(pods[i]).value
    ensures i == |pods| ==> Scan(pods) == NEUTRAL
  {
    if i > 0 && |pods| > 1 {
      ScanAt(pods[1..], i - 1);
    }
  }

  lemma {:induction false} FirstBadExitAt(statuses: seq<ContainerStatus>, i: nat)
    requires i <= |statuses| && forall j :: 0 <= j < i ==> !ExitedBadly(statuses[j])
    ensures i < |statuses| && ExitedBadly(statuses[i]) ==> FirstBadExit(statuses) == statuses[i].state.terminated
    ensures i == |statuses| ==> FirstBadExit(statuses) == None
  {
    if i > 0 {
      FirstBadExitAt(statuses[1..], i - 1);
    }
  }

  lemma {:induction false} FirstPullingAt(statuses: seq<ContainerStatus>, i: nat)
    requires i <= |statuses| && forall j :: 0 <= j < i ==> !PullingImage(statuses[j])
    ensures i < |statuses| && PullingImage(statuses[i]) ==> FirstPulling(statuses) == statuses[i].state.waiting
    ensures i == |statuses| ==> FirstPulling(statuses) == None
  {
    if i > 0 {
      FirstPullingAt(statuses[1..], i - 1);
    }
  }

  lemma {:induction false} FirstNotReadyAt(conditions: seq<PodCondition>, i: nat)
    requires i <= |conditions| && forall j :: 0 <= j < i ==> !NotReady(conditions[j])
    ensures i < |conditions| && NotReady(conditions[i]) ==> FirstNotReady(conditions) == Some(conditions[i])
    ensures i == |conditions| ==> FirstNotReady(conditions) == None
  {
    if i > 0 {
      FirstNotReadyAt(conditions[1..], i - 1);
    }
  }

  /** The body of the scan for one pod; None means the loop goes on to the next pod. */
  method InspectPod(pod: Pod) returns (r: Option<Health>)
    ensures r == PodHealth(pod)
  {
    if pod.phase == PodFailed {
      for c := 0 to |pod.statuses|
        invariant forall j :: 0 <= j < c ==> !ExitedBadly(pod.statuses[j])
      {
        var state := pod.statuses[c].state;
        if state.terminated.Some? && state.terminated.value.exitCode > 0 {
          FirstBadExitAt(pod.statuses, c);
          var t := state.terminated.value;
          return Some(Health(Some(Failed), t.reason + "ExitCode " + Itoa(t.exitCode), t.message));
        }
      }
      FirstBadExitAt(pod.statuses, |pod.statuses|);
      return Some(Health(Some(Failed), "PodFailed", pod.message));
    }
    if pod.phase == PodSucceeded {
      return Some(NEUTRAL);
    }
    if pod.phase != PodRunning && pod.conditions.Some? {
      for c := 0 to |pod.initStatuses|
        invariant forall j :: 0 <= j < c ==> !PullingImage(pod.initStatuses[j])
      {
        if PullingImage(pod.initStatuses[c]) {
          FirstPullingAt(pod.initStatuses, c);
          return Some(Health(Some(Warning), "InitContainerImagePullBackOff",
                             pod.initStatuses[c].state.waiting.value.message));
        }
      }
      FirstPullingAt(pod.initStatuses, |pod.initStatuses|);
      for c := 0 to |pod.statuses|
        invariant forall j :: 0 <= j < c ==> !PullingImage(pod.statuses[j])
      {
        if PullingImage(pod.statuses[c]) {
          FirstPullingAt(pod.statuses, c);
          return Some(Health(Some(Warning), "ImagePullBackOff", pod.statuses[c].state.waiting.value.message));
        }
      }
      FirstPullingAt(pod.statuses, |pod.statuses|);
      var conditions := pod.conditions.value;
      for c := 0 to |conditions|
        invariant forall j :: 0 <= j < c ==> !NotReady(conditions[j])
      {
        if NotReady(conditions[c]) {
          FirstNotReadyAt(conditions, c);
          return Some(Health(Some(Warning), "ContainersNotReady", conditions[c].message));
        }
      }
      FirstNotReadyAt(conditions, |conditions|);
    }
    if pod.phase == PodUnschedulable {
      return Some(Health(Some(Warning), "PodReasonUnschedulable", "Pod is unschedulable"));
    }
    if pod.phase == PodPending && pod.conditions.None? {
      return Some(Health(Some(Warning), "PodPending", "Pod is still pending without conditions"));
    }
    return None;
  }

  method HasUnschedulablePods(pods: seq<Pod>) returns (r: Health)
    ensures r == Scan(pods)
  {
    if |pods| < 1 {
      return Health(Some(Starting), "PodNotReady", "Operation has no pods yet.");
    }
    for i := 0 to |pods|
      invariant forall j :: 0 <= j < i ==> PodHealth(pods[j]).None?
    {
      var here := InspectPod(pods[i]);
      if here.Some? {
        ScanAt(pods, i);
        return here.value;
      }
    }
    ScanAt(pods, |pods|);
    return NEUTRAL;
  }

  predicate Decisive(pods: seq<Pod>) {
    exists i :: 0 <= i < |pods| && PodHealth(pods[i]).Some?
  }

  /** The scan composes: the first part decides when it can, otherwise the second part does. */
  lemma {:induction false} ScanConcat(a: seq<Pod>, b: seq<Pod>)
    ensures Scan(a + b) == if Decisive(a) || b == [] then Scan(a) else Scan(b)
  {
    if a == [] {
      assert a + b == b;
    } else if b == [] {
      assert a + b == a;
    } else {
      assert (a + b)[1..] == a[1..] + b;
      ScanConcat(a[1..], b);
      if PodHealth(a[0]).None? {
        assert Decisive(a) ==> Decisive(a[1..]) by {
          if Decisive(a) {
            var i :| 0 <= i < |a| && PodHealth(a[i]).Some?;
            assert a[1..][i - 1] == a[i];
          }
        }
        assert Decisive(a[1..]) ==> Decisive(a) by {
          if Decisive(a[1..]) {
            var i :| 0 <= i < |a[1..]| && PodHealth(a[1..][i]).Some?;
            assert a[i + 1] == a[1..][i];
          }
        }
      }
    }
  }

  /** Starting is reported exactly for the empty list. */
  lemma {:induction false} ScanStarting(pods: seq<Pod>)
    ensures Scan(pods).kind == Some(Starting) <==> pods == []
  {
    if |pods| > 1 {
      ScanStarting(pods[1..]);
    }
  }

  /** A succeeded pod hides every later pod, however unhealthy. */
  lemma SucceededHidesLater(a: seq<Pod>, p: Pod, b: seq<Pod>)
    requires p.phase == PodSucceeded
    ensures Scan(a + [p] + b) == Scan(a + [p])
  {
    assert (a + [p])[|a|] == p;
    assert PodHealth((a + [p])[|a|]).Some?;
    ScanConcat(a + [p], b);
  }

  // ---- when the pods warn ----

  /** The image of the container cannot be pulled. */
  ghost predicate CannotPull(cs: ContainerStatus) {
    match cs.state.waiting
    case None => false
    case Some(w) => !cs.ready && (w.reason == "ImagePullBackOff" || w.reason == "ErrImagePull")
  }

  /** The pod cannot be scheduled, or is not ready because its containers are not. */
  ghost predicate NotPlaced(c: PodCondition) {
    c.reason == "Unschedulable" || (c.reason == "ContainersNotReady" && c.isReady && c.status == False)
  }

  /** A pod that is not running or finished and whose images cannot be pulled, or that is not ready or not placed. */
  ghost predicate PodWarns(p: Pod) {
    && !p.phase.PodFailed? && !p.phase.PodSucceeded? && !p.phase.PodRunning?
    && (|| (p.conditions.Some? && exists cs :: cs in p.initStatuses + p.statuses && CannotPull(cs))
        || (p.conditions.Some? && exists c :: c in p.conditions.value && NotPlaced(c))
        || p.phase.PodUnschedulable?
        || (p.phase.PodPending? && p.conditions.None?))
  }

  /** Neither finished nor warning, so the scan goes on past it. */
  ghost predicate Undecided(p: Pod) { !p.phase.PodFailed? && !p.phase.PodSucceeded? && !PodWarns(p) }

  /** Some pod warns and every pod before it is undecided. */
  ghost predicate PodsWarn(pods: seq<Pod>) {
    exists i :: 0 <= i < |pods| && PodWarns(pods[i]) && forall j :: 0 <= j < i ==> Undecided(pods[j])
  }

  lemma {:induction false} FirstPullingExists(statuses: seq<ContainerStatus>)
    ensures FirstPulling(statuses).Some? <==> exists cs :: cs in statuses && CannotPull(cs)
  {
    if statuses != [] {
      assert PullingImage(statuses[0]) <==> CannotPull(statuses[0]);
      FirstPullingExists(statuses[1..]);
      assert statuses == [statuses[0]] + statuses[1..];
    }
  }

  lemma {:induction false} FirstNotReadyExists(conditions: seq<PodCondition>)
    ensures FirstNotReady(conditions).Some? <==> exists c :: c in conditions && NotPlaced(c)
  {
    if conditions != [] {
      assert NotReady(conditions[0]) <==> NotPlaced(conditions[0]);
      FirstNotReadyExists(conditions[1..]);
      assert conditions == [conditions[0]] + conditions[1..];
    }
  }

  /** A pod gives a warning exactly when it warns, and nothing exactly when it is undecided. */
  lemma PodHealthMeaning(p: Pod)
    ensures var h := PodHealth(p);
            (h.Some? && h.value.kind == Some(Warning) <==> PodWarns(p)) && (h.None? <==> Undecided(p))
  {
    FirstPullingExists(p.initStatuses);
    FirstPullingExists(p.statuses);
    assert forall cs :: cs in p.initStatuses + p.statuses <==> cs in p.initStatuses || cs in p.statuses;
    if p.conditions.Some? {
      FirstNotReadyExists(p.conditions.value);
    }
  }

  /** The scan of a pod list warns exactly when its first decided pod does. */
  lemma {:induction false} ScanWarns(pods: seq<Pod>)
    ensures Scan(pods).kind == Some(Warning) <==> PodsWarn(pods)
  {
    if pods != [] {
      var rest := pods[1..];
      PodHealthMeaning(pods[0]);
      if Undecided(pods[0]) {
        ScanWarns(rest);
        if PodsWarn(pods) {
          var i :| 0 <= i < |pods| && PodWarns(pods[i]) && forall j :: 0 <= j < i ==> Undecided(pods[j]);
          assert PodWarns(rest[i - 1]) && forall j :: 0 <= j < i - 1 ==> rest[j] == pods[j + 1];
        }
        if PodsWarn(rest) {
          var i :| 0 <= i < |rest| && PodWarns(rest[i]) && forall j :: 0 <= j < i ==> Undecided(rest[j]);
          assert PodWarns(pods[i + 1]) && forall j :: 0 < j < i + 1 ==> pods[j] == rest[j - 1];
        }
      }
    }
  }

  // ---- exits and running containers, from the pods' own fields ----

  /** Position i holds the main container: the first status named as the spec's first container, if it lists any. */
  ghost predicate MainAt(p: Pod, i: int) {
    && 0 <= i < |p.statuses|
    && var name := if p.containers == [] then p.statuses[0].name else p.containers[0];
       p.statuses[i].name == name && forall j :: 0 <= j < i ==> p.statuses[j].name != name
  }

  /** The container failed: it ended badly now, or before while it is running or waiting again. */
  ghost predicate EndedBadly(cs: ContainerStatus) {
    if cs.state.terminated.Some? then cs.state.terminated.value.exitCode != 0
    else (cs.state.running || cs.state.waiting.Some?)
         && cs.lastTermination.Some? && cs.lastTermination.value.exitCode != 0
  }

  /** The container ended well: now, or before while it is waiting and not running again. */
  ghost predicate EndedWell(cs: ContainerStatus) {
    if cs.state.terminated.Some? then cs.state.terminated.value.exitCode == 0
    else cs.state.waiting.Some? && !cs.state.running
         && cs.lastTermination.Some? && cs.lastTermination.value.exitCode == 0
  }

  /** How often it failed: its restarts, and one more for an exit that has not been followed by a restart. */
  ghost function AttemptsOf(cs: ContainerStatus): int32 {
    if cs.state.terminated.Some? then Wrap32(cs.restartCount + 1) else cs.restartCount
  }

  /** The reason it gave for the exit that counts. */
  ghost function ReasonOf(cs: ContainerStatus): string {
    var reason := if cs.state.terminated.Some? then cs.state.terminated.value.reason
                  else if cs.lastTermination.Some? then cs.lastTermination.value.reason else "";
    if reason == "" then "ContainerFailed" else reason
  }

  ghost predicate MainFailed(p: Pod) { exists i :: MainAt(p, i) && EndedBadly(p.statuses[i]) }

  ghost predicate MainEndedWell(p: Pod) { exists i :: MainAt(p, i) && EndedWell(p.statuses[i]) }

  ghost predicate MainFailedOften(p: Pod, limit: int32) {
    exists i :: MainAt(p, i) && EndedBadly(p.statuses[i]) && AttemptsOf(p.statuses[i]) > limit
  }

  ghost predicate MainRuns(p: Pod) { exists i :: MainAt(p, i) && p.statuses[i].state.running }

  lemma {:induction false} FirstNamedFound(statuses: seq<ContainerStatus>, name: string) returns (i: nat)
    ensures i <= |statuses| && forall j :: 0 <= j < i ==> statuses[j].name != name
    ensures i < |statuses| ==> statuses[i].name == name && FirstNamed(statuses, name) == Some(statuses[i])
    ensures i == |statuses| ==> FirstNamed(statuses, name) == None
  {
    i := 0;
    if statuses != [] && statuses[0].name != name {
      i := FirstNamedFound(statuses[1..], name);
      i := i + 1;
    }
  }

  /** The main container's status is the one at that position, and there is none without it. */
  lemma MainStatusMeaning(p: Pod)
    ensures forall i :: MainAt(p, i) ==> MainStatus(p) == Some(p.statuses[i])
    ensures MainStatus(p).Some? ==> exists i :: MainAt(p, i)
  {
    if p.statuses != [] {
      var name := if p.containers == [] then p.statuses[0].name else p.containers[0];
      var k := FirstNamedFound(p.statuses, name);
      if k < |p.statuses| {
        assert MainAt(p, k);
      }
      forall i | MainAt(p, i)
        ensures MainStatus(p) == Some(p.statuses[i])
      {
        assert i == k;
      }
    }
  }

  /** Which exit of a pod counts, how often it failed and whether it runs: all from the main container's fields. */
  lemma PodExitMeaning(p: Pod, limit: int32)
    ensures FailedExit(p) <==> MainFailed(p)
    ensures CleanExit(p) <==> MainEndedWell(p)
    ensures FailedExit(p) && PodExit(p).value.FailedAttempts() > limit <==> MainFailedOften(p, limit)
    ensures MainRunning(p) <==> MainRuns(p)
    ensures forall i :: MainAt(p, i) && FailedExit(p) ==>
              var e := PodExit(p).value;
              && e.podName == p.name && e.containerName == p.statuses[i].name
              && e.FailureReason() == ReasonOf(p.statuses[i]) && e.FailedAttempts() == AttemptsOf(p.statuses[i])
  {
    MainStatusMeaning(p);
    if MainStatus(p).Some? {
      var i :| MainAt(p, i);
      assert MainStatus(p) == Some(p.statuses[i]);
    }
  }

  /** Pod p failed at least as often as any other. */
  ghost predicate WorstPod(pods: seq<Pod>, p: Pod, i: int) {
    && p in pods && MainAt(p, i) && EndedBadly(p.statuses[i])
    && forall q :: q in pods ==> !MainFailedOften(q, AttemptsOf(p.statuses[i]))
  }

  /** The failure reported for a pod list is that of a pod that failed most often. */
  lemma WorstExitMeaning(pods: seq<Pod>, limit: int32)
    ensures var failed := FailedOf(Exits(pods));
            && (failed.Some? <==> exists p :: p in pods && MainFailed(p))
            && (failed.Some? && failed.value.FailedAttempts() > limit <==>
                exists p :: p in pods && MainFailedOften(p, limit))
            && (failed.Some? ==>
                && failed.value.exitCode != 0
                && exists p, i :: WorstPod(pods, p, i) && failed.value.FailureReason() == ReasonOf(p.statuses[i]))
  {
    var exits := Exits(pods);
    var k := FailedOfIsWorst(exits);
    var failed := FailedOf(exits);
    forall p | p in pods
      ensures MainFailed(p) ==> failed.Some?
      ensures MainFailedOften(p, limit) ==> failed.Some? && failed.value.FailedAttempts() > limit
      ensures failed.Some? ==> !MainFailedOften(p, failed.value.FailedAttempts())
    {
      PodExitMeaning(p, limit);
      if failed.Some? {
        PodExitMeaning(p, failed.value.FailedAttempts());
      }
      var j :| 0 <= j < |pods| && pods[j] == p;
      assert exits[j] == PodExit(p);
    }
    if failed.Some? {
      var p := pods[k];
      assert exits[k] == PodExit(p) && p in pods;
      PodExitMeaning(p, limit);
      var i :| MainAt(p, i) && EndedBadly(p.statuses[i]);
      assert WorstPod(pods, p, i);
    }
  }

  lemma CleanExitMeaning(pods: seq<Pod>)
    ensures var clean := CleanOf(Exits(pods));
            && (clean.Some? <==> exists p :: p in pods && MainEndedWell(p))
            && (clean.Some? ==> clean.value.exitCode == 0)
  {
    var exits := Exits(pods);
    var i := CleanOfIsFirst(exits);
    forall p | p in pods && MainEndedWell(p)
      ensures CleanOf(exits).Some?
    {
      PodExitMeaning(p, 0);
      var j :| 0 <= j < |pods| && pods[j] == p;
      assert exits[j] == PodExit(p) && Clean(exits[j]);
    }
    if CleanOf(exits).Some? {
      assert exits[i] == PodExit(pods[i]) && pods[i] in pods;
      PodExitMeaning(pods[i], 0);
    }
  }

  /** Some pod's main container runs. */
  lemma AnyMainRunningMeaning(pods: seq<Pod>)
    ensures AnyMainRunning(pods) <==> exists p :: p in pods && MainRuns(p)
  {
    forall p
      ensures MainRunning(p) <==> MainRuns(p)
    {
      PodExitMeaning(p, 0);
    }
  }

  // ---- what a decided pod reports ----

  ghost predicate PositiveExit(cs: ContainerStatus) {
    match cs.state.terminated
    case None => false
    case Some(t) => t.exitCode > 0
  }

  /** Position i holds the first container whose exit code is positive. */
  ghost predicate BadExitAt(statuses: seq<ContainerStatus>, i: int) {
    0 <= i < |statuses| && PositiveExit(statuses[i]) && forall j :: 0 <= j < i ==> !PositiveExit(statuses[j])
  }

  ghost predicate PullingAt(statuses: seq<ContainerStatus>, i: int) {
    0 <= i < |statuses| && CannotPull(statuses[i]) && forall j :: 0 <= j < i ==> !CannotPull(statuses[j])
  }

  ghost predicate NotReadyAt(conditions: seq<PodCondition>, i: int) {
    0 <= i < |conditions| && NotPlaced(conditions[i]) && forall j :: 0 <= j < i ==> !NotPlaced(conditions[j])
  }

  /** A failed pod reports its first bad exit, else its own message; a succeeded one reports nothing. */
  lemma EndedPodReports(p: Pod)
    ensures p.phase.PodSucceeded? ==> PodHealth(p) == Some(NEUTRAL)
    ensures p.phase.PodFailed? ==> PodHealth(p).Some? && PodHealth(p).value.kind == Some(Failed)
    ensures p.phase.PodFailed? ==> forall i :: BadExitAt(p.statuses, i) ==>
              var t, h := p.statuses[i].state.terminated.value, PodHealth(p).value;
              h.reason == t.reason + "ExitCode " + Itoa(t.exitCode) && h.message == t.message
    ensures p.phase.PodFailed? && (forall i :: 0 <= i < |p.statuses| ==> !PositiveExit(p.statuses[i])) ==>
              PodHealth(p) == Some(Health(Some(Failed), "PodFailed", p.message))
  {
    if p.phase.PodFailed? {
      forall i | BadExitAt(p.statuses, i)
        ensures FirstBadExit(p.statuses) == p.statuses[i].state.terminated
      {
        FirstBadExitAt(p.statuses, i);
      }
      if forall i :: 0 <= i < |p.statuses| ==> !PositiveExit(p.statuses[i]) {
        assert forall i :: 0 <= i < |p.statuses| ==> !ExitedBadly(p.statuses[i]);
        FirstBadExitAt(p.statuses, |p.statuses|);
      }
    }
  }

  /**
   What a warning pod reports, in this order: the first init container that cannot pull its image, the first
   container that cannot, the first condition that is not ready, and only then where the pod is.
   */
  lemma WarningPodReports(p: Pod)
    requires PodWarns(p)
    ensures PodHealth(p).Some?
    ensures var h, seen := PodHealth(p).value, p.conditions.Some?;
            var init := seen && exists cs :: cs in p.initStatuses && CannotPull(cs);
            var main := seen && exists cs :: cs in p.statuses && CannotPull(cs);
            var unready := seen && exists c :: c in p.conditions.value && NotPlaced(c);
            && h.kind == Some(Warning)
            && h.reason == (if init then "InitContainerImagePullBackOff" else if main then "ImagePullBackOff"
                            else if unready then "ContainersNotReady"
                            else if p.phase.PodUnschedulable? then "PodReasonUnschedulable" else "PodPending")
            && (init ==> forall i :: PullingAt(p.initStatuses, i) ==>
                  h.message == p.initStatuses[i].state.waiting.value.message)
            && (!init && main ==> forall i :: PullingAt(p.statuses, i) ==>
                  h.message == p.statuses[i].state.waiting.value.message)
            && (!init && !main && unready ==> forall i :: NotReadyAt(p.conditions.value, i) ==>
                  h.message == p.conditions.value[i].message)
  {
    FirstPullingExists(p.initStatuses);
    FirstPullingExists(p.statuses);
    forall i | PullingAt(p.initStatuses, i)
      ensures FirstPulling(p.initStatuses) == p.initStatuses[i].state.waiting
    {
      FirstPullingAt(p.initStatuses, i);
    }
    forall i | PullingAt(p.statuses, i)
      ensures FirstPulling(p.statuses) == p.statuses[i].state.waiting
    {
      FirstPullingAt(p.statuses, i);
    }
    if p.conditions.Some? {
      FirstNotReadyExists(p.conditions.value);
      forall i | NotReadyAt(p.conditions.value, i)
        ensures FirstNotReady(p.conditions.value) == Some(p.conditions.value[i])
      {
        FirstNotReadyAt(p.conditions.value, i);
      }
    }
  }
}
