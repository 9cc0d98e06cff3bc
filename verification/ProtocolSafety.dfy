/** Invariants of every run of the reconcile protocol. */
module ProtocolSafety {
  import opened Prelude
  import opened Conditions
  import opened ConditionHistory
  import opened Pods
  import opened Verdicts
  import opened JobStatus
  import opened KfJobStatus
  import opened ServiceStatus
  import opened ClusterStatus
  import opened Timing
  import opened Protocol

  // ---- what a stored status looks like ----

  ghost predicate OneTerminal(conditions: seq<Condition>) {
    forall a, b :: Terminal(a) && Terminal(b) && Has(conditions, a) && Has(conditions, b) ==> a == b
  }

  /** A stop recorded for the deadline carries a time at or after start + deadline. */
  ghost predicate NotEarly(limits: Limits, s: Status) {
    forall c :: c in s.conditions && c.kind == Stopped && c.reason == DEADLINE_REASON ==>
      limits.deadline.Some? && s.start.Some?
      && (-LONGEST <= limits.deadline.value <= LONGEST ==> c.updated >= s.start.value + SECOND * limits.deadline.value)
  }

  /** The completion time is present exactly for the end states that stamp it. */
  ghost predicate CompletionMatches(kind: Kind, s: Status) {
    s.completion.Some? <==>
      if Marking(kind) then Done(s.conditions) else Has(s.conditions, Succeeded) || Has(s.conditions, Failed)
  }

  ghost predicate Good(cfg: Config, s: Status) {
    && WellFormed(s.conditions) && OneTerminal(s.conditions)
    && CompletionMatches(cfg.kind, s) && NotEarly(cfg.limits, s)
  }

  /** The operation got past creation. */
  predicate Progressed(s: Status) {
    s.conditions != [] && s.conditions[|s.conditions| - 1].kind != Starting
  }

  /** What no later status may undo. */
  ghost predicate Follows(kind: Kind, s: Status, t: Status) {
    && (s.start.Some? ==> t.start == s.start)
    && (forall k :: Terminal(k) && Has(s.conditions, k) ==> Has(t.conditions, k))
    && (Marking(kind) && Done(s.conditions) ==> t.conditions == s.conditions && t.completion == s.completion)
    && (Marking(kind) && Progressed(s) ==> Progressed(t))
    && (s.conditions != [] ==> t.conditions != [])
  }

  /** Finalizer discipline between consecutive revisions. */
  ghost predicate FinalizersFollow(r: Revision, t: Revision) {
    && (StatusFinalizer in r.finalizers && StatusFinalizer !in t.finalizers ==> LogsFinalizer !in r.finalizers)
    && (LogsFinalizer in r.finalizers && LogsFinalizer !in t.finalizers ==> t.cause == FinalizerWrite(true))
    && (forall f :: f in {LogsFinalizer, StatusFinalizer} && f in t.finalizers && f !in r.finalizers ==>
          !r.deleting && !Done(r.status.conditions))
    && (r.deleting ==> t.deleting)
  }

  ghost predicate HistoryOk(cfg: Config, h: seq<Revision>) {
    && h != []
    && (forall i :: 0 <= i < |h| ==> Good(cfg, h[i].status))
    && (forall i :: 0 < i < |h| ==> Follows(cfg.kind, h[i - 1].status, h[i].status) && FinalizersFollow(h[i - 1], h[i]))
  }

  // ---- logging keeps statuses good ----

  /** Whether a completion time may be stamped along with this entry. */
  ghost predicate Stamps(kind: Kind, e: Entry, completion: Option<int>) {
    completion.Some? <==> if Marking(kind) then Terminal(e.kind) else e.kind == Succeeded || e.kind == Failed
  }

  lemma {:induction false} DoneLogged(conditions: seq<Condition>, e: Entry, clock: Clock)
    requires WellFormed(conditions)
    ensures Done(Logged(conditions, e, clock)) <==> Done(conditions) || Terminal(e.kind)
  {
    HasLogged(conditions, e, clock, Succeeded);
    HasLogged(conditions, e, clock, Failed);
    HasLogged(conditions, e, clock, Stopped);
  }

  lemma {:induction false} NotEarlyLogged(limits: Limits, s: Status, e: Entry, clock: Clock)
    requires WellFormed(s.conditions) && NotEarly(limits, s)
    requires e.kind == Stopped && e.reason == DEADLINE_REASON ==>
               !Has(s.conditions, Stopped)
               && DeadlineDecide(limits.deadline, s.start, false, clock.before).Expired?
    ensures NotEarly(limits, s.(conditions := Logged(s.conditions, e, clock)))
  {
    var l := Logged(s.conditions, e, clock);
    LoggedMembers(s.conditions, e, clock);
    HasWhenWellFormed(s.conditions, Stopped);
    LoggedWellFormed(s.conditions, e, clock);
    forall c | c in l && c.kind == Stopped && c.reason == DEADLINE_REASON
      ensures limits.deadline.Some? && s.start.Some?
      ensures -LONGEST <= limits.deadline.value <= LONGEST ==>
                c.updated >= s.start.value + SECOND * limits.deadline.value
    {
      if c !in s.conditions {
        assert e.kind == Stopped;
        var i :| 0 <= i < |l| && l[i] == c;
        assert i == |l| - 1;
        if -LONGEST <= limits.deadline.value <= LONGEST {
          DeadlineMeaning(limits.deadline.value, s.start.value, clock.before);
        }
      }
    }
  }

  /** Logging on a status that is not done: at most one end state, and the times match it. */
  lemma {:induction false} RecordGood(cfg: Config, s: Status, e: Entry, clock: Clock, completion: Option<int>)
    requires Good(cfg, s) && !Done(s.conditions) && Stamps(cfg.kind, e, completion)
    requires e.kind == Stopped && e.reason == DEADLINE_REASON ==>
               DeadlineDecide(cfg.limits.deadline, s.start, false, clock.before).Expired?
    requires Marking(cfg.kind) && Progressed(s) ==> e.kind != Starting
    ensures var t := Record(s, e, clock, completion);
            && Good(cfg, t) && Follows(cfg.kind, s, t) && t.conditions != []
            && (Done(t.conditions) <==> Terminal(e.kind))
  {
    var t := Record(s, e, clock, completion);
    LoggedWellFormed(s.conditions, e, clock);
    DoneLogged(s.conditions, e, clock);
    NotEarlyLogged(cfg.limits, s, e, clock);
    forall k
      ensures Has(t.conditions, k) <==> k == e.kind || Has(s.conditions, k)
    {
      HasLogged(s.conditions, e, clock, k);
    }
  }

  /** Logging a warning, even on a done status, keeps the end state. */
  lemma {:induction false} WarnGood(cfg: Config, s: Status, e: Entry, clock: Clock)
    requires Good(cfg, s) && e.kind == Warning && (Marking(cfg.kind) ==> !Done(s.conditions))
    ensures var t := Record(s, e, clock, None);
            Good(cfg, t) && Follows(cfg.kind, s, t) && t.conditions != []
  {
    var t := Record(s, e, clock, None);
    LoggedWellFormed(s.conditions, e, clock);
    DoneLogged(s.conditions, e, clock);
    NotEarlyLogged(cfg.limits, s, e, clock);
    forall k
      ensures Has(t.conditions, k) <==> k == e.kind || Has(s.conditions, k)
    {
      HasLogged(s.conditions, e, clock, k);
    }
  }

  /** No status decision logs Stopped, and only the Dask one logs Starting. */
  lemma {:induction false} DecideKinds(cfg: Config, conditions: seq<Condition>, seen: Observation)
    ensures var v := Decide(cfg, conditions, seen);
            v.Log? ==> v.entry.kind != Stopped && (cfg.kind != DaskKind ==> v.entry.kind != Starting)
  {
    match cfg.kind
    case JobKind => JobKinds(seen.job, seen.pods, cfg.format);
    case KfJobKind => KfKinds(conditions, seen.kf, seen.pods, cfg.format);
    case ServiceKind => DeploymentKinds(seen.deployment, seen.pods);
    case DaskKind => DaskKinds(seen.dask, seen.pods, seen.deployments);
    case RayKind => RayKinds(seen.ray, seen.pods);
  }

  ghost predicate Advances(v: Verdict) { v.Log? ==> v.entry.kind != Stopped && v.entry.kind != Starting }

  lemma {:induction false} JobKinds(job: BatchJob, pods: seq<Pod>, format: Formatter)
    ensures Advances(JobVerdict(job, pods, format))
  {
  }

  lemma {:induction false} KfKinds(conditions: seq<Condition>, child: KfChild, pods: seq<Pod>, format: Formatter)
    ensures Advances(KfVerdict(conditions, child, pods, format))
  {
  }

  lemma {:induction false} DeploymentKinds(d: Deployment, pods: seq<Pod>)
    ensures Advances(DeploymentVerdict(d, pods))
  {
  }

  lemma {:induction false} DaskKinds(child: DaskChild, pods: seq<Pod>, deployments: seq<seq<DeploymentCondition>>)
    ensures var v := DaskVerdict(child, pods, deployments); v.Log? ==> v.entry.kind != Stopped
  {
    DaskEndsExactly(child, pods, deployments);
  }

  lemma {:induction false} RayKinds(child: RayChild, pods: seq<Pod>)
    ensures Advances(RayVerdict(child, pods))
  {
  }

  lemma {:induction false} ReasonsDiffer()
    ensures JOB_DELETED != DEADLINE_REASON && CLUSTER_DELETED != DEADLINE_REASON
  {
    assert |JOB_DELETED| == 10 && |CLUSTER_DELETED| == 14 && |DEADLINE_REASON| == 16;
  }

  // ---- what a worker holds ----

  /** Jobs and KfJobs are deleted only for their TTL, and only once it has passed. */
  ghost predicate TtlDue(cfg: Config, s: Status, reason: Reason) {
    Marking(cfg.kind) ==>
      && reason.TtlAt? && Done(s.conditions)
      && (cfg.ttl.Some? ==> s.completion.Some? && reason.now > s.completion.value + SECOND * cfg.ttl.value)
  }

  /** Calls that store nothing and may follow a stored write or a read. */
  predicate Plain(pc: Pc) {
    pc.Push? || pc.Delete? || pc.Idle? || pc.Ttl? || pc.Refetch? || InRuntime(pc) || InServicePart(pc)
  }

  /** What each such call relies on about the status it was reached with. */
  ghost predicate Needs(cfg: Config, pc: Pc, s: Status) {
    && Plain(pc)
    && (pc.Push? ==> s.conditions != [] && Needs(cfg, pc.next, s))
    && (pc.Delete? ==> pc.next == END && TtlDue(cfg, s, pc.reason))
    && (pc.Idle? ==> Marking(cfg.kind) ==> !pc.panicked)
    && (pc.Ttl? ==> Done(s.conditions))
    && (pc.Refetch? ==> Clustered(cfg.kind) && (!pc.stage.StartSet? ==> !Done(s.conditions)))
    && (InRuntime(pc) || pc.ExitCheck? || pc.CullCheck? ==> !Done(s.conditions))
    && (pc.CreateChild? ==> (Marking(cfg.kind) ==> !Progressed(s)) && (Clustered(cfg.kind) ==> s.conditions == []))
    && (pc.RefetchCreated? ==> Clustered(cfg.kind) && s.conditions == [])
    && (InServicePart(pc) && !pc.Deadline? ==> cfg.kind == ServiceKind)
    && (pc.Deadline? ==> !Marking(cfg.kind))
  }

  ghost predicate SameMeta(base: Revision, i: Instance) {
    i.finalizers == base.finalizers && i.deleting == base.deleting
  }

  ghost predicate PendingWrite(cfg: Config, base: Revision, i: Instance, onOk: Pc, onFail: Pc) {
    && SameMeta(base, i) && Good(cfg, i.status) && Follows(cfg.kind, base.status, i.status)
    && i.status.conditions != [] && Needs(cfg, onOk, i.status)
    && (onFail == END || (cfg.kind == JobKind && onFail == Push(END)))
  }

  ghost predicate PendingFinalizers(cfg: Config, base: Revision, wk: Worker) {
    var i := wk.inst;
    && i.status == base.status && i.deleting == base.deleting
    && (wk.pc.AddLogs? ==> i.finalizers == base.finalizers + {LogsFinalizer} && !Done(i.status.conditions))
    && (wk.pc.AddStatus? ==> i.finalizers == base.finalizers + {StatusFinalizer} && !Done(i.status.conditions))
    && (wk.pc.PutFinalizers? ==>
          && Needs(cfg, wk.pc.next, i.status)
          && ((wk.collected && i.finalizers == base.finalizers - {LogsFinalizer})
              || (LogsFinalizer !in base.finalizers && i.finalizers == base.finalizers - {StatusFinalizer})))
  }

  ghost predicate WorkerOk(cfg: Config, h: seq<Revision>, wk: Worker) {
    var pc, i := wk.pc, wk.inst;
    i.version < |h| &&
    var base := h[i.version];
    if pc.Write? then PendingWrite(cfg, base, i, pc.onOk, pc.onFail)
    else if WritesFinalizers(pc) then PendingFinalizers(cfg, base, wk)
    else if pc.WriteStart? then
      && SameMeta(base, i) && base.status.start.None? && i.status.start.Some?
      && i.status == base.status.(start := i.status.start)
    else if pc.PushStopped? || pc.Collect? then
      i.status == base.status && SameMeta(base, i) && (i.deleting || (pc.Collect? && Done(i.status.conditions)))
    else
      Needs(cfg, pc, i.status) && (pc.Idle? || pc == Push(END) || (i.status == base.status && SameMeta(base, i)))
  }

  /** The worker's copy agrees with the revision it came from, as after a read or a stored write. */
  ghost predicate InSync(h: seq<Revision>, i: Instance) {
    i.version < |h| && i.status == h[i.version].status && SameMeta(h[i.version], i)
  }

  /** A worker in sync may take up any call whose needs its status meets. */
  lemma {:induction false} TakeUp(cfg: Config, h: seq<Revision>, wk: Worker)
    requires InSync(h, wk.inst) && Needs(cfg, wk.pc, wk.inst.status)
    ensures WorkerOk(cfg, h, wk)
  {
  }

  lemma {:induction false} FinalizeOk(cfg: Config, h: seq<Revision>, wk: Worker)
    requires InSync(h, wk.inst) && (wk.inst.deleting || Done(wk.inst.status.conditions))
    ensures WorkerOk(cfg, h, Finalize(wk))
  {
  }

  lemma {:induction false} AfterLogsOk(cfg: Config, h: seq<Revision>, wk: Worker)
    requires InSync(h, wk.inst) && !Done(wk.inst.status.conditions)
    ensures WorkerOk(cfg, h, AfterLogs(cfg, wk))
  {
  }

  lemma {:induction false} DispatchOk(cfg: Config, h: seq<Revision>, wk: Worker)
    requires InSync(h, wk.inst)
    ensures WorkerOk(cfg, h, Dispatch(cfg, wk))
  {
    if wk.inst.deleting || Done(wk.inst.status.conditions) {
      FinalizeOk(cfg, h, wk);
    } else {
      AfterLogsOk(cfg, h, wk);
    }
  }

  lemma {:induction false} StartOk(cfg: Config, h: seq<Revision>, version: nat, clock: Clock)
    requires version < |h|
    ensures WorkerOk(cfg, h, Start(cfg, Load(h, version), clock))
  {
    DispatchOk(cfg, h, Worker(END, Load(h, version), false));
  }

  /** A worker in sync that records an allowed entry holds a good pending write. */
  lemma {:induction false} RecordingOk(
      cfg: Config, h: seq<Revision>, wk: Worker, e: Entry, clock: Clock, completion: Option<int>, onOk: Pc, onFail: Pc)
    requires Good(cfg, wk.inst.status) && InSync(h, wk.inst) && !Done(wk.inst.status.conditions)
    requires Stamps(cfg.kind, e, completion)
    requires e.kind == Stopped && e.reason == DEADLINE_REASON ==>
               DeadlineDecide(cfg.limits.deadline, wk.inst.status.start, false, clock.before).Expired?
    requires Marking(cfg.kind) && Progressed(wk.inst.status) ==> e.kind != Starting
    requires var t := Record(wk.inst.status, e, clock, completion);
             t.conditions != [] && (Done(t.conditions) <==> Terminal(e.kind)) ==> Needs(cfg, onOk, t)
    requires onFail == END || (cfg.kind == JobKind && onFail == Push(END))
    ensures WorkerOk(cfg, h, Recording(wk, e, clock, completion, onOk, onFail))
  {
    RecordGood(cfg, wk.inst.status, e, clock, completion);
  }

  lemma {:induction false} WarnAndEndOk(cfg: Config, h: seq<Revision>, wk: Worker, e: Entry, clock: Clock)
    requires Good(cfg, wk.inst.status) && InSync(h, wk.inst)
    requires e.kind == Warning && (Marking(cfg.kind) ==> !Done(wk.inst.status.conditions))
    ensures WorkerOk(cfg, h, WarnAndEnd(wk, e, clock))
  {
    WarnGood(cfg, wk.inst.status, e, clock);
  }

  lemma {:induction false} MissingEntryKind(kind: Kind)
    ensures MissingEntry(kind).kind == Stopped && MissingEntry(kind).reason != DEADLINE_REASON
  {
    ReasonsDiffer();
  }

  /** A status that is neither done nor still starting ends in Running or Warning. */
  lemma {:induction false} ProgressedTail(s: Status)
    requires WellFormed(s.conditions) && !Done(s.conditions)
    ensures MarksDeleted(s.conditions) <==> Progressed(s)
  {
    if s.conditions != [] {
      var last := s.conditions[|s.conditions| - 1];
      HasWhenWellFormed(s.conditions, last.kind);
      assert last in s.conditions;
    }
  }

  lemma {:induction false} MissingChildOk(cfg: Config, h: seq<Revision>, wk: Worker, stop: Entry, o: Outcome)
    requires Good(cfg, wk.inst.status) && InSync(h, wk.inst) && !Done(wk.inst.status.conditions)
    requires stop.kind == Stopped && stop.reason != DEADLINE_REASON
    ensures WorkerOk(cfg, h, MissingChild(cfg, wk, stop, o))
  {
    ProgressedTail(wk.inst.status);
    if Marking(cfg.kind) && MarksDeleted(wk.inst.status.conditions) {
      RecordingOk(cfg, h, wk, stop, o.clock, Some(o.clock.before), Push(END), END);
      assert MissingChild(cfg, wk, stop, o) == Recording(wk, stop, o.clock, Some(o.clock.before), Push(END), END);
    } else if Clustered(cfg.kind) && wk.inst.status.conditions != [] {
      RecordingOk(cfg, h, wk, stop, o.clock, None, Push(Deadline), END);
      assert MissingChild(cfg, wk, stop, o) == Recording(wk, stop, o.clock, None, Push(Deadline), END);
    } else {
      assert MissingChild(cfg, wk, stop, o) == wk.(pc := CreateChild);
      TakeUp(cfg, h, wk.(pc := CreateChild));
    }
  }

  lemma {:induction false} ChildCreatedOk(cfg: Config, h: seq<Revision>, wk: Worker, o: Outcome)
    requires Good(cfg, wk.inst.status) && InSync(h, wk.inst) && !Done(wk.inst.status.conditions)
    requires Marking(cfg.kind) ==> !Progressed(wk.inst.status)
    ensures WorkerOk(cfg, h, ChildCreated(cfg, wk, o))
  {
    var onFail := if cfg.kind == JobKind then Push(END) else END;
    RecordingOk(cfg, h, wk, StartingEntry(), o.clock, None, Push(Observe(true)), onFail);
  }

  lemma {:induction false} SettledOk(cfg: Config, h: seq<Revision>, wk: Worker, v: Verdict, o: Outcome)
    requires Good(cfg, wk.inst.status) && InSync(h, wk.inst) && !Done(wk.inst.status.conditions)
    requires v.Log? ==> v.entry.kind != Stopped && (cfg.kind != DaskKind ==> v.entry.kind != Starting)
    ensures WorkerOk(cfg, h, Settled(cfg, wk, v, o))
  {
    var now := if cfg.kind == ServiceKind then o.clock.after else o.clock.before;
    if v.Log? && Updates(wk.inst.status, v) {
      RecordingOk(cfg, h, wk, v.entry, o.clock, if Terminal(v.entry.kind) then Some(now) else None,
                  Push(AfterObserve(cfg.kind)), END);
    }
  }

  lemma {:induction false} ObservedOk(cfg: Config, h: seq<Revision>, wk: Worker, o: Outcome, justCreated: bool)
    requires Good(cfg, wk.inst.status) && InSync(h, wk.inst) && !Done(wk.inst.status.conditions)
    ensures WorkerOk(cfg, h, Observed(cfg, wk, o, justCreated))
  {
    var seen := if justCreated then Blank(o.seen) else o.seen;
    DecideKinds(cfg, wk.inst.status.conditions, seen);
    SettledOk(cfg, h, wk, Decide(cfg, wk.inst.status.conditions, seen), o);
  }

  lemma {:induction false} DeadlineCheckedOk(cfg: Config, h: seq<Revision>, wk: Worker, o: Outcome)
    requires Good(cfg, wk.inst.status) && InSync(h, wk.inst) && !Marking(cfg.kind)
    ensures WorkerOk(cfg, h, DeadlineChecked(cfg, wk, o))
  {
    var s := wk.inst.status;
    if DeadlineDecide(cfg.limits.deadline, s.start, Done(s.conditions), o.clock.before).Expired? {
      RecordingOk(cfg, h, wk, DeadlineEntry(), o.clock, None, Push(Delete(END, Overdue)), END);
    }
  }

  lemma {:induction false} ExitVerdictKinds(pods: seq<Pod>, limits: Limits, format: ExitFormatter)
    ensures var v := ExitVerdict(pods, limits.replicas, limits.backoff, format);
            v.Log? ==> v.entry.kind == Succeeded || v.entry.kind == Failed
  {
  }

  lemma {:induction false} ExitCheckedOk(cfg: Config, h: seq<Revision>, wk: Worker, o: Outcome)
    requires Good(cfg, wk.inst.status) && InSync(h, wk.inst) && !Done(wk.inst.status.conditions)
    requires cfg.kind == ServiceKind
    ensures WorkerOk(cfg, h, ExitChecked(cfg, wk, o))
  {
    ExitVerdictKinds(o.seen.pods, cfg.limits, cfg.exitFormat);
    var v := ExitVerdict(o.seen.pods, cfg.limits.replicas, cfg.limits.backoff, cfg.exitFormat);
    if cfg.labelled && v.Log? {
      RecordingOk(cfg, h, wk, v.entry, o.clock, Some(o.clock.before), Push(END), END);
    }
  }

  lemma {:induction false} TtlCheckedOk(cfg: Config, h: seq<Revision>, wk: Worker, o: Outcome)
    requires Good(cfg, wk.inst.status) && InSync(h, wk.inst) && Done(wk.inst.status.conditions)
    ensures WorkerOk(cfg, h, TtlChecked(cfg, wk, o))
  {
    if cfg.ttl.Some? {
      SecondsExact(cfg.ttl.value);
    }
  }

  /** The cluster controllers read the operation again mid-pass; this is what they must find. */
  ghost predicate RefetchesSame(cfg: Config, h: seq<Revision>, wk: Worker, o: Outcome) {
    Clustered(cfg.kind) && !o.fails && o.version < |h| ==> h[o.version].status == wk.inst.status
  }

  /** Every answer to a call that stores nothing leaves the worker consistent. */
  lemma {:induction false} ResumeOk(cfg: Config, h: seq<Revision>, wk: Worker, o: Outcome)
    requires WorkerOk(cfg, h, wk) && Good(cfg, h[wk.inst.version].status)
    requires !WritesStatus(wk.pc) && !WritesFinalizers(wk.pc) && !wk.pc.Idle? && !wk.pc.Delete?
    requires wk.pc.Refetch? || wk.pc.RefetchCreated? ==> RefetchesSame(cfg, h, wk, o)
    ensures WorkerOk(cfg, h, Resume(cfg, h, wk, o))
  {
    if InRuntime(wk.pc) {
      RuntimeOk(cfg, h, wk, o);
    } else if InServicePart(wk.pc) {
      ServicePartOk(cfg, h, wk, o);
    } else {
      match wk.pc
      case PushStopped => FinalizeOk(cfg, h, wk);
      case Collect =>
      case Refetch(stage) => RefetchOk(cfg, h, wk, o);
      case Ttl => TtlCheckedOk(cfg, h, wk, o);
      case Push(next) => PushOk(cfg, h, wk, o);
    }
  }

  lemma {:induction false} PushOk(cfg: Config, h: seq<Revision>, wk: Worker, o: Outcome)
    requires WorkerOk(cfg, h, wk) && wk.pc.Push?
    ensures WorkerOk(cfg, h, Resume(cfg, h, wk, o))
  {
    assert Resume(cfg, h, wk, o) == wk.(pc := wk.pc.next);
    if wk.pc.next != END {
      TakeUp(cfg, h, wk.(pc := wk.pc.next));
    }
  }

  lemma {:induction false} RuntimeOk(cfg: Config, h: seq<Revision>, wk: Worker, o: Outcome)
    requires InRuntime(wk.pc)
    requires InSync(h, wk.inst) && Needs(cfg, wk.pc, wk.inst.status) && Good(cfg, wk.inst.status)
    requires wk.pc.RefetchCreated? ==> RefetchesSame(cfg, h, wk, o)
    ensures WorkerOk(cfg, h, ResumeRuntime(cfg, h, wk, o))
  {
    if wk.pc.GetChild? {
      GetChildOk(cfg, h, wk, o);
    } else if wk.pc.CreateChild? {
      CreateChildOk(cfg, h, wk, o);
    } else if wk.pc.Observe? {
      ObservedOk(cfg, h, wk, o, wk.pc.justCreated);
    } else if wk.pc.RefetchCreated? && !o.fails && o.version < |h| {
      ChildCreatedOk(cfg, h, wk.(inst := Load(h, o.version)), o);
    }
  }

  lemma {:induction false} GetChildOk(cfg: Config, h: seq<Revision>, wk: Worker, o: Outcome)
    requires wk.pc.GetChild?
    requires InSync(h, wk.inst) && Needs(cfg, wk.pc, wk.inst.status) && Good(cfg, wk.inst.status)
    ensures WorkerOk(cfg, h, ResumeRuntime(cfg, h, wk, o))
  {
    MissingEntryKind(cfg.kind);
    MissingChildOk(cfg, h, wk, MissingEntry(cfg.kind), o);
  }

  lemma {:induction false} CreateChildOk(cfg: Config, h: seq<Revision>, wk: Worker, o: Outcome)
    requires wk.pc.CreateChild?
    requires InSync(h, wk.inst) && Needs(cfg, wk.pc, wk.inst.status) && Good(cfg, wk.inst.status)
    ensures WorkerOk(cfg, h, ResumeRuntime(cfg, h, wk, o))
  {
    if o.fails {
      WarnAndEndOk(cfg, h, wk, WarningEntry(CreateReason(cfg.kind), o.error), o.clock);
    } else if !Clustered(cfg.kind) {
      ChildCreatedOk(cfg, h, wk, o);
    }
  }

  lemma {:induction false} ServicePartOk(cfg: Config, h: seq<Revision>, wk: Worker, o: Outcome)
    requires InServicePart(wk.pc)
    requires InSync(h, wk.inst) && Needs(cfg, wk.pc, wk.inst.status) && Good(cfg, wk.inst.status)
    ensures WorkerOk(cfg, h, ResumeService(cfg, wk, o))
  {
    if wk.pc.Deadline? {
      DeadlineCheckedOk(cfg, h, wk, o);
    } else if wk.pc.ExitCheck? && !o.fails {
      ExitCheckedOk(cfg, h, wk, o);
    } else if wk.pc.CreateBase? && o.fails {
      WarnAndEndOk(cfg, h, wk, WarningEntry("OperatorCreateService", o.error), o.clock);
    }
  }

  lemma {:induction false} RefetchOk(cfg: Config, h: seq<Revision>, wk: Worker, o: Outcome)
    requires WorkerOk(cfg, h, wk) && wk.pc.Refetch? && RefetchesSame(cfg, h, wk, o)
    ensures WorkerOk(cfg, h, Resume(cfg, h, wk, o))
  {
    if !o.fails && o.version < |h| {
      var again := wk.(inst := Load(h, o.version));
      match wk.pc.stage
      case StartSet => DispatchOk(cfg, h, again);
      case LogsAdded => AfterLogsOk(cfg, h, again);
      case StatusAdded =>
    }
  }
}
