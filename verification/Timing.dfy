/**
 Time-driven handling: the TTL after completion (job/cleanup.go, the same in all controllers), the active
 deadline (service/cleanup.go and cluster/cleanup.go) and culling (service/service.go), in Go's int64 durations.
 */
module Timing {
  import opened Prelude
  import opened Conditions
  import opened ConditionHistory
  import opened Pods
  import opened ServiceStatus
  import opened Verdicts

  /** time.Second * time.Duration(n). */
  function Seconds(n: int64): int64 { Wrap64(SECOND * n) }

  const LONGEST: int := 9_223_372_036

  /** The multiplication is exact precisely up to about 292 years either way. */
  lemma SecondsExact(n: int64)
    ensures Seconds(n) == SECOND * n <==> -LONGEST <= n <= LONGEST
  {
  }

  // ---- TTL ----

  /** A zero TTL is not special: the source compares pointers there, which never match. */
  datatype TtlDecision = DeleteNow | Recheck(after: int64) | MissingCompletion

  function TtlDecide(ttl: Option<int32>, completion: Option<int>, now: int): TtlDecision {
    if ttl.None? then DeleteNow
    else if completion.None? then MissingCompletion
    else
      var future := completion.value + Seconds(ttl.value);
      if now > future then DeleteNow else Recheck(Elapsed(future, now))
  }

  /**
   Deletion comes strictly after completion + ttl, and until then the wait is never negative and ends exactly
   there, unless that is more than the longest duration away. No int32 TTL overflows.
   */
  lemma TtlMeaning(ttl: int32, completion: int, now: int)
    ensures var d, due := TtlDecide(Some(ttl), Some(completion), now), completion + SECOND * ttl;
            && (d.DeleteNow? <==> now > due)
            && (!d.DeleteNow? ==> d.Recheck? && d.after >= 0 && now + d.after <= due)
            && (!d.DeleteNow? ==> (now + d.after == due <==> due - now <= MAX_INT64))
  {
    SecondsExact(ttl);
  }

  /** The time is read exactly when a TTL is set, so it is missed exactly when the completion time is. */
  lemma TtlNeedsCompletion(ttl: Option<int32>, completion: Option<int>, now: int)
    ensures TtlDecide(ttl, completion, now).MissingCompletion? <==> ttl.Some? && completion.None?
  {
  }

  /** Passes driven by their own timer: each comes later than the one before and not before the wait it asked for. */
  ghost predicate TimerDriven(ttl: int32, completion: int, times: seq<int>) {
    && (forall i :: 0 <= i < |times| ==> completion <= times[i])
    && (forall i :: 0 < i < |times| ==>
          var d := TtlDecide(Some(ttl), Some(completion), times[i - 1]);
          times[i - 1] < times[i] && (d.Recheck? ==> times[i - 1] + d.after <= times[i]))
  }

  /** From the third timer-driven pass on, every pass deletes. */
  lemma {:induction false} TtlRunsEndInDelete(ttl: int32, completion: int, times: seq<int>, k: nat)
    requires TimerDriven(ttl, completion, times) && 2 <= k < |times|
    ensures TtlDecide(Some(ttl), Some(completion), times[k]).DeleteNow?
  {
    TtlMeaning(ttl, completion, times[k - 2]);
    TtlMeaning(ttl, completion, times[k - 1]);
    TtlMeaning(ttl, completion, times[k]);
    assert times[k - 2] < times[k - 1] && times[k - 1] < times[k];
  }

  // ---- active deadline ----

  datatype DeadlineDecision = NoDeadline | Expired | Within(wait: int64)

  function DeadlineDecide(deadline: Option<int64>, start: Option<int>, done: bool, now: int): DeadlineDecision {
    if deadline.None? || start.None? || done then NoDeadline
    else
      var allowed := Seconds(deadline.value);
      if Elapsed(now, start.value) >= allowed then Expired
      else Within(Elapsed(start.value + allowed, now))
  }

  /** In range, the deadline expires exactly when it has passed, and otherwise the wait is positive and not past it. */
  lemma DeadlineMeaning(deadline: int64, start: int, now: int)
    requires -LONGEST <= deadline <= LONGEST
    ensures var d := DeadlineDecide(Some(deadline), Some(start), false, now);
            && (d.Expired? <==> now >= start + SECOND * deadline)
            && (!d.Expired? ==> d.Within? && d.wait > 0 && now + d.wait <= start + SECOND * deadline)
            && (d.Within? ==> (now + d.wait == start + SECOND * deadline <==>
                               start + SECOND * deadline - now <= MAX_INT64))
  {
    SecondsExact(deadline);
  }

  /** The decision is the one the spec asks for, at every start and time, exactly within that range. */
  lemma DeadlineExact(deadline: int64)
    ensures (forall start, now :: DeadlineDecide(Some(deadline), Some(start), false, now).Expired? <==>
                                    now >= start + SECOND * deadline)
            <==> -LONGEST <= deadline <= LONGEST
  {
    if -LONGEST <= deadline <= LONGEST {
      forall start, now
        ensures DeadlineDecide(Some(deadline), Some(start), false, now).Expired? <==> now >= start + SECOND * deadline
      {
        DeadlineMeaning(deadline, start, now);
      }
    } else if deadline > LONGEST {
      var now := MAX_INT64;
      assert DeadlineDecide(Some(deadline), Some(0), false, now).Expired? && now < SECOND * deadline;
    } else {
      var now := if Seconds(deadline) == MIN_INT64 then SECOND * deadline - 1 else SECOND * deadline;
      assert now < MIN_INT64 && Elapsed(now, 0) == MIN_INT64;
      assert DeadlineDecide(Some(deadline), Some(0), false, now).Expired? <==> now < SECOND * deadline;
    }
  }

  /** From just beyond the range up to twice as far the product wraps negative and a fresh operation expires at once. */
  lemma HugeDeadlineExpiresAtOnce(deadline: int64, start: int, now: int)
    requires LONGEST < deadline <= 2 * LONGEST + 1 && start <= now
    ensures DeadlineDecide(Some(deadline), Some(start), false, now).Expired?
  {
    assert Seconds(deadline) == SECOND * deadline - 0x1_0000_0000_0000_0000;
  }

  const DEADLINE_REASON := "DeadlineExceeded"
  const DEADLINE_MESSAGE :=
    "Cleanup triggered based on ActiveDeadlineSeconds, operation was active longer than specified deadline"

  function DeadlineEntry(): Entry { Entry(Stopped, DEADLINE_REASON, DEADLINE_MESSAGE) }

  /** The status part of the deadline check; the delete that follows an expiry is the caller's next API call. */
  method HandlePastActiveDeadline(status: OperationStatus, deadline: Option<int64>, clock: Clock)
    returns (wait: Option<int64>, expired: bool)
    modifies status`conditions
    ensures var d := DeadlineDecide(deadline, status.startTime, Done(old(status.conditions)), clock.before);
            && expired == d.Expired?
            && wait == (if d.Within? then Some(d.wait) else None)
            && status.conditions ==
               if d.Expired? then Logged(old(status.conditions), DeadlineEntry(), clock) else old(status.conditions)
  {
    if deadline.None? || status.startTime.None? || status.IsDone() {
      return None, false;
    }
    var start := status.startTime.value;
    var duration := Elapsed(clock.before, start);
    var allowed := Wrap64(SECOND * deadline.value);
    if duration >= allowed {
      var _ := status.LogCondition(DeadlineEntry(), clock);
      return None, true;
    }
    return Some(Elapsed(start + allowed, clock.before)), false;
  }

  // ---- culling ----

  /** What the activity probe gives: not configured, not implemented, an error, or the last activity it reports. */
  datatype Probe = NoProbe | ExecProbe | ProbeError | LastActive(at: int)

  datatype CullDecision = NotCulled | CheckIn(wait: int64) | Cull

  function CullDecide(timeout: Option<int32>, running: bool, probe: Probe, now: int): CullDecision {
    if timeout.None? || !running || probe.NoProbe? || probe.ExecProbe? then NotCulled
    else
      var limit := Seconds(timeout.value);
      if probe.ProbeError? then CheckIn(limit)
      else if Elapsed(now, probe.at) < limit then CheckIn(Wrap64(limit - Elapsed(now, probe.at)))
      else Cull
  }

  /** The culling check: a wait for the next check, or the decision to delete the idle Service. */
  method HandleCulling(status: OperationStatus, timeout: Option<int32>, probe: Probe, now: int)
    returns (wait: Option<int64>, cull: bool)
    ensures var d := CullDecide(timeout, LastIs(status.conditions, Running), probe, now);
            wait == (if d.CheckIn? then Some(d.wait) else None) && cull == d.Cull?
  {
    if timeout.None? {
      return None, false;
    }
    if !status.IsRunning() {
      return None, false;
    }
    var limit: int := Wrap64(SECOND * timeout.value);
    match probe {
      case NoProbe => return None, false;
      case ExecProbe => return None, false;
      case ProbeError => return Some(limit), false;
      case LastActive(at) =>
        var elapsed: int := Elapsed(now, at);
        if elapsed < limit {
          return Some(Wrap64(limit - elapsed)), false;
        }
        return None, true;
    }
  }

  /**
   A check-in that no timer can serve: the probe failed under a non-positive timeout, or it reports activity so far
   ahead that the subtraction overflows.
   */
  predicate Unserviceable(timeout: Option<int32>, probe: Probe, now: int) {
    && timeout.Some?
    && (|| (probe.ProbeError? && timeout.value <= 0)
        || (probe.LastActive? && timeout.value >= 0 && probe.at - now > MAX_INT64 - SECOND * timeout.value))
  }

  lemma CullMeaning(timeout: Option<int32>, running: bool, probe: Probe, now: int)
    ensures var d := CullDecide(timeout, running, probe, now);
            d.CheckIn? && d.wait <= 0 <==> timeout.Some? && running && Unserviceable(timeout, probe, now)
  {
    if timeout.Some? {
      SecondsExact(timeout.value);
    }
  }

  /**
   A running Service with a timeout is culled exactly when its last activity lies at least the timeout back, and
   checked again exactly when it does not or the probe failed; the check is due exactly one timeout after the
   activity, or a full timeout after a failed probe.
   */
  lemma CullExact(timeout: Option<int32>, running: bool, probe: Probe, now: int)
    ensures var d, probed := CullDecide(timeout, running, probe, now), timeout.Some? && running;
            && (d.Cull? <==> probed && probe.LastActive? && now - probe.at >= SECOND * timeout.value)
            && (d.CheckIn? <==>
                probed && (probe.ProbeError? || (probe.LastActive? && now - probe.at < SECOND * timeout.value)))
            && (d.CheckIn? && probe.ProbeError? ==> d.wait == SECOND * timeout.value)
            && (d.CheckIn? && probe.LastActive? && now - probe.at >= MIN_INT64
                && !Unserviceable(timeout, probe, now) ==>
                now + d.wait == probe.at + SECOND * timeout.value)
  {
    if timeout.Some? {
      SecondsExact(timeout.value);
    }
  }

  /** A positive timeout alone does not rule this out: activity reported far enough ahead leaves no wake-up at all. */
  lemma FarActivityGetsNoWakeUp(timeout: int32, now: int)
    requires timeout > 0
    ensures var d := CullDecide(Some(timeout), true, LastActive(now + MAX_INT64), now); d.CheckIn? && d.wait <= 0
  {
    CullMeaning(Some(timeout), true, LastActive(now + MAX_INT64), now);
  }

  /** The earlier of the deadline wait and the culling check; service.go keeps the deadline wait on a tie. */
  function EarlierWait(wait: Option<int64>, cull: CullDecision): Option<int64> {
    if cull.CheckIn? && (wait.None? || cull.wait < wait.value) then Some(cull.wait) else wait
  }

  /** controller-runtime schedules a later pass only for a positive delay. */
  predicate Wakes(after: Option<int64>) { after.Some? && after.value > 0 }

  // ---- the end of a pass ----

  /** The settings of a Service that the end of its pass reads. */
  datatype Limits = Limits(
    deadline: Option<int64>, timeout: Option<int32>, replicas: Option<int32>, backoff: Option<int32>)

  /** How an error-free pass ends: requeued at once, after a delay, or not at all. */
  datatype PassEnd = PassEnd(requeue: bool, after: Option<int64>)

  /** Why it ends: done already, stopped for the deadline, ended by a container exit, deleted as idle, or still open. */
  datatype Finish = Finished | DeadlineStop | ExitEnd | Culled(wait: Option<int64>) | Open(wait: Option<int64>)

  /** What the end of a pass is about; a cluster has neither exits nor a culling timeout. */
  datatype Ending = Ending(exits: bool, timeout: Option<int32>, running: bool, probe: Probe)

  const CLUSTER_ENDING: Ending := Ending(false, None, false, NoProbe)

  /** `at` is the clock reading of the deadline check, `now` the one of the culling check. */
  function FinishOf(deadline: Option<int64>, start: Option<int>, done: bool, e: Ending, at: int, now: int): Finish {
    var d := DeadlineDecide(deadline, start, done, at);
    var wait := if d.Within? then Some(d.wait) else None;
    if done then Finished
    else if d.Expired? then DeadlineStop
    else if e.exits then ExitEnd
    else
      var c := CullDecide(e.timeout, e.running, e.probe, now);
      if c.Cull? then Culled(wait) else Open(EarlierWait(wait, c))
  }

  function EndOf(f: Finish): PassEnd {
    match f
    case Finished => PassEnd(false, None)
    case DeadlineStop => PassEnd(false, None)
    case ExitEnd => PassEnd(true, None)
    case Culled(wait) => PassEnd(false, wait)
    case Open(wait) => PassEnd(false, wait)
  }

  predicate Deletes(f: Finish) { f.DeadlineStop? || f.Culled? }

  /** The check-in of this pass is one that no timer can serve. */
  predicate Unserved(e: Ending, now: int) { e.timeout.Some? && e.running && Unserviceable(e.timeout, e.probe, now) }

  /**
   An unexpired deadline is served: a pass that leaves the operation open asks for a wake-up no later than the
   deadline, except exactly when its culling check-in is unserviceable.
   */
  lemma OpenPassWakes(deadline: int64, start: int, e: Ending, at: int, now: int)
    requires -LONGEST <= deadline <= LONGEST
    ensures var f := FinishOf(Some(deadline), Some(start), false, e, at, now);
            && (f.DeadlineStop? <==> at >= start + SECOND * deadline)
            && (f.Open? ==> f.wait.Some? && at + f.wait.value <= start + SECOND * deadline
                            && (Wakes(f.wait) <==> !Unserved(e, now)))
  {
    DeadlineMeaning(deadline, start, at);
    CullMeaning(e.timeout, e.running, e.probe, now);
  }

  /** An open pass asks for the earlier of the deadline's wait and the culling check, and for nothing without both. */
  lemma OpenWaitIsEarliest(deadline: Option<int64>, start: Option<int>, e: Ending, at: int, now: int)
    ensures var f := FinishOf(deadline, start, false, e, at, now);
            var d, c := DeadlineDecide(deadline, start, false, at), CullDecide(e.timeout, e.running, e.probe, now);
            f.Open? ==>
              && (f.wait.None? <==> !d.Within? && !c.CheckIn?)
              && (f.wait.Some? ==> (d.Within? && f.wait.value == d.wait) || (c.CheckIn? && f.wait.value == c.wait))
              && (d.Within? ==> f.wait.value <= d.wait) && (c.CheckIn? ==> f.wait.value <= c.wait)
  {
  }

  /** The end of an error-free Service pass, from the deadline check on. */
  method FinishServicePass(
      status: OperationStatus, limits: Limits, labelled: bool, pods: seq<Pod>, format: ExitFormatter, probe: Probe,
      first: Clock, second: Clock, now: int)
    returns (end: PassEnd, deleted: bool)
    modifies status
    ensures var v := if labelled then ExitVerdict(pods, limits.replicas, limits.backoff, format) else Keep;
            var e := Ending(v.Log?, limits.timeout, LastIs(old(status.conditions), Running), probe);
            var f := FinishOf(limits.deadline, old(status.startTime), old(status.IsDone()), e, first.before, now);
            && end == EndOf(f) && deleted == Deletes(f)
            && status.Value() ==
               if f.DeadlineStop? then Record(old(status.Value()), DeadlineEntry(), first, None)
               else if f.ExitEnd? then Apply(old(status.Value()), v, second, second.before)
               else old(status.Value())
  {
    var duration, expired := HandlePastActiveDeadline(status, limits.deadline, first);
    deleted := expired;
    if expired || status.IsDone() {
      return PassEnd(false, None), expired;
    }
    var done := HandleServiceContainerExit(status, labelled, pods, limits.replicas, limits.backoff, format, second);
    if done {
      return PassEnd(true, None), false;
    }
    var next, cull := HandleCulling(status, limits.timeout, probe, now);
    if next.Some? && (duration.None? || next.value < duration.value) {
      duration := next;
    }
    return PassEnd(false, duration), cull;
  }

  /** The end of an error-free cluster pass. */
  method FinishClusterPass(status: OperationStatus, deadline: Option<int64>, clock: Clock, ghost now: int)
    returns (end: PassEnd, deleted: bool)
    modifies status`conditions
    ensures var f := FinishOf(deadline, status.startTime, old(status.IsDone()), CLUSTER_ENDING, clock.before, now);
            && end == EndOf(f) && deleted == Deletes(f)
            && status.conditions ==
               if f.DeadlineStop? then Logged(old(status.conditions), DeadlineEntry(), clock)
               else old(status.conditions)
  {
    var duration, expired := HandlePastActiveDeadline(status, deadline, clock);
    return PassEnd(false, duration), expired;
  }

  // ---- timed runs of an operation with a deadline ----

  /** `wakes` holds the pending timers; `stopped` the time at which the deadline was recorded. */
  datatype Timed = Timed(now: int, wakes: set<int>, ended: bool, stopped: Option<int>)

  /** `decided` is whether the status decision earlier in the pass ended the operation. */
  datatype TimedEvent =
    | Advance(to: int)
    | Watch(decided: bool, ending: Ending)
    | Fire(decided: bool, ending: Ending)

  /** An error-free pass at the present time over a started operation: its end is the one FinishOf gives. */
  function TimedPass(deadline: int64, start: int, t: Timed, decided: bool, e: Ending): Timed {
    var f := FinishOf(Some(deadline), Some(start), t.ended || decided, e, t.now, t.now);
    if t.ended then t
    else if f.DeadlineStop? then t.(ended := true, stopped := Some(t.now))
    else if !f.Open? then t.(ended := true)
    else if Wakes(EndOf(f).after) then t.(wakes := t.wakes + {t.now + f.wait.value}) else t
  }

  /** Time never moves past a pending timer; a due timer is consumed by the pass it starts. */
  function TimedStep(deadline: int64, start: int, t: Timed, e: TimedEvent): Timed {
    match e
    case Advance(to) => if to >= t.now && (forall w :: w in t.wakes ==> to <= w) then t.(now := to) else t
    case Watch(decided, ending) => TimedPass(deadline, start, t, decided, ending)
    case Fire(decided, ending) =>
      if t.now in t.wakes then TimedPass(deadline, start, t.(wakes := t.wakes - {t.now}), decided, ending) else t
  }

  /** A timed run: the states it goes through and the event between each two; it begins with a pass. */
  ghost predicate IsTimedRun(deadline: int64, start: int, states: seq<Timed>, events: seq<TimedEvent>) {
    && |states| == |events| + 1 && states[0].stopped.None? && events != [] && events[0].Watch?
    && (forall i {:trigger events[i]} :: 0 <= i < |events| ==>
          states[i + 1] == TimedStep(deadline, start, states[i], events[i]))
  }

  /** No pass of the run meets an unserviceable check-in. */
  ghost predicate Served(states: seq<Timed>, events: seq<TimedEvent>)
    requires |states| == |events| + 1
  {
    forall i {:trigger events[i]} :: 0 <= i < |events| && !events[i].Advance? ==>
      !Unserved(events[i].ending, states[i].now)
  }

  /** Until the operation ends, a timer is pending at or before the deadline; a stop for the deadline is not early. */
  ghost predicate Covered(deadline: int64, start: int, t: Timed) {
    && (!t.ended ==> exists w :: w in t.wakes && t.now <= w <= start + SECOND * deadline)
    && (t.stopped.Some? ==> t.ended && t.stopped.value >= start + SECOND * deadline)
  }

  lemma TimedPassCovers(deadline: int64, start: int, t: Timed, decided: bool, e: Ending)
    requires -LONGEST <= deadline <= LONGEST && !Unserved(e, t.now)
    requires t.stopped.Some? ==> t.ended && t.stopped.value >= start + SECOND * deadline
    ensures Covered(deadline, start, TimedPass(deadline, start, t, decided, e))
  {
    OpenPassWakes(deadline, start, e, t.now, t.now);
    var after := TimedPass(deadline, start, t, decided, e);
    if !after.ended {
      var f := FinishOf(Some(deadline), Some(start), false, e, t.now, t.now);
      assert t.now + f.wait.value in after.wakes;
    }
  }

  lemma TimedStepCovers(deadline: int64, start: int, t: Timed, e: TimedEvent)
    requires -LONGEST <= deadline <= LONGEST && Covered(deadline, start, t)
    requires !e.Advance? ==> !Unserved(e.ending, t.now)
    ensures Covered(deadline, start, TimedStep(deadline, start, t, e))
  {
    match e
    case Advance(to) =>
      if !t.ended {
        var w :| w in t.wakes && t.now <= w <= start + SECOND * deadline;
        assert w in TimedStep(deadline, start, t, e).wakes;
      }
    case Watch(decided, ending) => TimedPassCovers(deadline, start, t, decided, ending);
    case Fire(decided, ending) =>
      if t.now in t.wakes {
        TimedPassCovers(deadline, start, t.(wakes := t.wakes - {t.now}), decided, ending);
      }
  }

  /**
   Over every timed run: from the first pass on a wake-up for the deadline is always pending, the stop is
   recorded no earlier than start + deadline, and once that instant has gone by the operation has ended.
   */
  lemma {:induction false} DeadlineIsServed(
      deadline: int64, start: int, states: seq<Timed>, events: seq<TimedEvent>, i: nat)
    requires -LONGEST <= deadline <= LONGEST
    requires IsTimedRun(deadline, start, states, events) && Served(states, events) && 0 < i < |states|
    ensures Covered(deadline, start, states[i])
    ensures states[i].now > start + SECOND * deadline ==> states[i].ended
  {
    var e := events[i - 1];
    if i == 1 {
      TimedPassCovers(deadline, start, states[0], e.decided, e.ending);
    } else {
      DeadlineIsServed(deadline, start, states, events, i - 1);
      TimedStepCovers(deadline, start, states[i - 1], e);
    }
  }
}
