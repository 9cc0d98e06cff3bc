/**
 The reconcile protocol as steps. An API server keeps every revision of one operation; workers run passes,
 one API call per step; the environment answers reads (fresh or stale), fails calls, crashes workers, edits
 metadata and requests deletion. One machine covers the Job, KfJob, Service and Cluster controllers.
 */
module Protocol {
  import opened Prelude
  import opened Conditions
  import opened Pods
  import opened Verdicts
  import opened JobStatus
  import opened KfJobStatus
  import opened ServiceStatus
  import opened ClusterStatus
  import opened Timing

  datatype Kind = JobKind | KfJobKind | ServiceKind | DaskKind | RayKind

  /** Kinds that mark an operation Stopped when a child that got past creation goes missing. */
  predicate Marking(kind: Kind) { kind == JobKind || kind == KfJobKind }

  predicate Clustered(kind: Kind) { kind == DaskKind || kind == RayKind }

  /** The operator's settings and the operation's termination spec; `labelled` is the instance label's presence. */
  datatype Config = Config(
    kind: Kind, logsFinalizers: bool, statusFinalizers: bool, ttl: Option<int32>, limits: Limits, labelled: bool,
    format: Formatter, exitFormat: ExitFormatter)

  // ---- what the API server stores ----

  datatype Finalizer = LogsFinalizer | StatusFinalizer | Foreign(name: string)

  /** Who made a revision; a finalizer write carries whether its pass had collected the logs. */
  datatype Cause = Created | External | StatusWrite | FinalizerWrite(collected: bool) | Deletion

  datatype Revision = Revision(status: Status, finalizers: set<Finalizer>, deleting: bool, cause: Cause)

  /** A worker's copy of the operation; the version is the index of the revision it was loaded from. */
  datatype Instance = Instance(version: nat, status: Status, finalizers: set<Finalizer>, deleting: bool)

  function Load(history: seq<Revision>, version: nat): Instance
    requires version < |history|
  {
    var r := history[version];
    Instance(version, r.status, r.finalizers, r.deleting)
  }

  // ---- what a worker is about to do ----

  datatype Stage = StartSet | LogsAdded | StatusAdded

  datatype Reason = TtlAt(now: int) | Overdue | Inactive

  datatype Pc =
    | Idle(panicked: bool)
    | WriteStart
    | PushStopped | Collect | PutFinalizers(next: Pc) | AddLogs | AddStatus | Refetch(stage: Stage)
    | Ttl | Delete(next: Pc, reason: Reason)
    | GetChild | CreateChild | RefetchCreated | UpdateChild | Observe(justCreated: bool)
    | GetBase | CreateBase | UpdateBase | Deadline | ExitCheck | CullCheck
    | Write(onOk: Pc, onFail: Pc) | Push(next: Pc)

  const END: Pc := Idle(false)

  datatype Worker = Worker(pc: Pc, inst: Instance, collected: bool)

  datatype Deleted = Deleted(version: nat, reason: Reason)

  /** `creates` holds, for each child create issued, how many revisions existed then; `bases` counts base services. */
  datatype World = World(
    history: seq<Revision>, gone: bool, workers: map<nat, Worker>, creates: seq<nat>, bases: nat,
    deletes: seq<Deleted>, pushed: Option<Condition>, panicked: bool)

  function Initial(finalizers: set<Finalizer>): World {
    var born := Revision(Status([], None, None), finalizers - {LogsFinalizer, StatusFinalizer}, false, Created);
    World([born], false, map[], [], 0, [], None, false)
  }

  // ---- the environment's choices ----

  /** Everything a pass may observe about the child and the pods. */
  datatype Observation = Observation(
    job: BatchJob, kf: KfChild, deployment: Deployment, dask: DaskChild,
    deployments: seq<seq<DeploymentCondition>>, ray: RayChild, pods: seq<Pod>)

  /** The answer to one API call; each call uses the fields it needs. */
  datatype Outcome = Outcome(
    fails: bool, found: bool, version: nat, error: string, clock: Clock, seen: Observation, probe: Probe)

  datatype Event =
    | Begin(id: nat, version: nat, clock: Clock)
    | Act(id: nat, outcome: Outcome)
    | Lose(id: nat)
    | Crash(id: nat)
    | RequestDeletion
    | Edit(foreign: set<Finalizer>)

  // ---- the passes ----

  function Blank(seen: Observation): Observation {
    seen.(job := BLANK_JOB, kf := NoStatus, deployment := BLANK_DEPLOYMENT, dask := DaskNoStatus, ray := RayNoStatus)
  }

  function Decide(cfg: Config, conditions: seq<Condition>, seen: Observation): Verdict {
    match cfg.kind
    case JobKind => JobVerdict(seen.job, seen.pods, cfg.format)
    case KfJobKind => KfVerdict(conditions, seen.kf, seen.pods, cfg.format)
    case ServiceKind => DeploymentVerdict(seen.deployment, seen.pods)
    case DaskKind => DaskVerdict(seen.dask, seen.pods, seen.deployments)
    case RayKind => RayVerdict(seen.ray, seen.pods)
  }

  function CreateReason(kind: Kind): string {
    match kind
    case JobKind => "OperatorCreateJob"
    case KfJobKind => "OperatorCreateTFJob"
    case ServiceKind => "OperatorCreateDeployment"
    case DaskKind => "OperatorCreateDaskCluster"
    case RayKind => "OperatorCreateRayCluster"
  }

  const CLUSTER_DELETED := "ClusterDeleted"

  /** The end state recorded when a child that existed before is missing. */
  function MissingEntry(kind: Kind): Entry {
    match kind
    case JobKind => DeletedEntry("Kubernetes Job", false)
    case KfJobKind => DeletedEntry("TFJob", false)
    case RayKind => Entry(Stopped, JOB_DELETED, "The underlying RayCluster was deleted")
    case _ => Entry(Stopped, CLUSTER_DELETED, "The underlying DaskCluster was deleted")
  }

  /** The worker logs an entry on its copy and goes on to write it. */
  function Recording(wk: Worker, e: Entry, clock: Clock, completion: Option<int>, onOk: Pc, onFail: Pc): Worker {
    wk.(inst := wk.inst.(status := Record(wk.inst.status, e, clock, completion)), pc := Write(onOk, onFail))
  }

  function WarnAndEnd(wk: Worker, e: Entry, clock: Clock): Worker {
    if LogChanges(wk.inst.status.conditions, e) then Recording(wk, e, clock, None, Push(END), END) else wk.(pc := END)
  }

  function AfterFinalizers(inst: Instance): Pc { if inst.deleting then END else Ttl }

  function Finalize(wk: Worker): Worker {
    if LogsFinalizer in wk.inst.finalizers then wk.(pc := Collect)
    else if StatusFinalizer in wk.inst.finalizers then
      wk.(pc := PutFinalizers(AfterFinalizers(wk.inst)),
          inst := wk.inst.(finalizers := wk.inst.finalizers - {StatusFinalizer}))
    else wk.(pc := AfterFinalizers(wk.inst))
  }

  function AfterLogs(cfg: Config, wk: Worker): Worker {
    if cfg.statusFinalizers && StatusFinalizer !in wk.inst.finalizers then
      wk.(pc := AddStatus, inst := wk.inst.(finalizers := wk.inst.finalizers + {StatusFinalizer}))
    else wk.(pc := GetChild)
  }

  /** The top-level order: deletion, then done, then finalizers, then the runtime. */
  function Dispatch(cfg: Config, wk: Worker): Worker {
    if wk.inst.deleting && !Done(wk.inst.status.conditions) then wk.(pc := PushStopped)
    else if wk.inst.deleting || Done(wk.inst.status.conditions) then Finalize(wk)
    else if cfg.logsFinalizers && LogsFinalizer !in wk.inst.finalizers then
      wk.(pc := AddLogs, inst := wk.inst.(finalizers := wk.inst.finalizers + {LogsFinalizer}))
    else AfterLogs(cfg, wk)
  }

  function Start(cfg: Config, inst: Instance, clock: Clock): Worker {
    var wk := Worker(END, inst, false);
    if inst.status.start.None?
    then wk.(pc := WriteStart, inst := inst.(status := inst.status.(start := Some(clock.before))))
    else Dispatch(cfg, wk)
  }

  function AfterObserve(kind: Kind): Pc {
    if Marking(kind) then END else if kind == ServiceKind then GetBase else Deadline
  }

  /** The child is missing: `stop` is the end state to record if it existed before. */
  function MissingChild(cfg: Config, wk: Worker, stop: Entry, o: Outcome): Worker {
    var conditions := wk.inst.status.conditions;
    if cfg.kind == ServiceKind then wk.(pc := if Done(conditions) then GetBase else CreateChild)
    else if Done(conditions) then wk.(pc := END)
    else if Marking(cfg.kind) && MarksDeleted(conditions) then
      Recording(wk, stop, o.clock, Some(o.clock.before), Push(END), END)
    else if Clustered(cfg.kind) && conditions != [] then
      Recording(wk, stop, o.clock, None, Push(Deadline), END)
    else wk.(pc := CreateChild)
  }

  function ChildCreated(cfg: Config, wk: Worker, o: Outcome): Worker {
    Recording(wk, StartingEntry(), o.clock, None, Push(Observe(true)), if cfg.kind == JobKind then Push(END) else END)
  }

  function Observed(cfg: Config, wk: Worker, o: Outcome, justCreated: bool): Worker {
    Settled(cfg, wk, Decide(cfg, wk.inst.status.conditions, if justCreated then Blank(o.seen) else o.seen), o)
  }

  function Settled(cfg: Config, wk: Worker, v: Verdict, o: Outcome): Worker {
    var now := if cfg.kind == ServiceKind then o.clock.after else o.clock.before;
    if v.Fault? then wk.(pc := END)
    else if Updates(wk.inst.status, v) then
      var completion := if Terminal(v.entry.kind) then Some(now) else None;
      Recording(wk, v.entry, o.clock, completion, Push(AfterObserve(cfg.kind)), END)
    else wk.(pc := AfterObserve(cfg.kind))
  }

  function DeadlineChecked(cfg: Config, wk: Worker, o: Outcome): Worker {
    var done := Done(wk.inst.status.conditions);
    if DeadlineDecide(cfg.limits.deadline, wk.inst.status.start, done, o.clock.before).Expired? then
      Recording(wk, DeadlineEntry(), o.clock, None, Push(Delete(END, Overdue)), END)
    else wk.(pc := if cfg.kind == ServiceKind && !done then ExitCheck else END)
  }

  function ExitChecked(cfg: Config, wk: Worker, o: Outcome): Worker {
    var v := if !cfg.labelled then Keep
             else ExitVerdict(o.seen.pods, cfg.limits.replicas, cfg.limits.backoff, cfg.exitFormat);
    if v.Log? then Recording(wk, v.entry, o.clock, Some(o.clock.before), Push(END), END)
    else wk.(pc := CullCheck)
  }

  function TtlChecked(cfg: Config, wk: Worker, o: Outcome): Worker {
    match TtlDecide(cfg.ttl, wk.inst.status.completion, o.clock.before)
    case DeleteNow => wk.(pc := Delete(END, TtlAt(o.clock.before)))
    case Recheck(_) => wk.(pc := END)
    case MissingCompletion => wk.(pc := Idle(true))
  }

  function Refetched(cfg: Config, wk: Worker, stage: Stage): Worker {
    match stage
    case StartSet => Dispatch(cfg, wk)
    case LogsAdded => AfterLogs(cfg, wk)
    case StatusAdded => wk.(pc := GetChild)
  }

  predicate InRuntime(pc: Pc) {
    pc.GetChild? || pc.CreateChild? || pc.RefetchCreated? || pc.UpdateChild? || pc.Observe?
  }

  predicate InServicePart(pc: Pc) {
    pc.GetBase? || pc.CreateBase? || pc.UpdateBase? || pc.Deadline? || pc.ExitCheck? || pc.CullCheck?
  }

  /** The child and the status decision (reconcileJob, reconcileTFJob, reconcileDeployment, ...). */
  function ResumeRuntime(cfg: Config, history: seq<Revision>, wk: Worker, o: Outcome): Worker
    requires InRuntime(wk.pc)
  {
    match wk.pc
    case GetChild =>
      if o.fails then wk.(pc := END)
      else if o.found then wk.(pc := UpdateChild)
      else MissingChild(cfg, wk, MissingEntry(cfg.kind), o)
    case CreateChild =>
      if o.fails then WarnAndEnd(wk, WarningEntry(CreateReason(cfg.kind), o.error), o.clock)
      else if Clustered(cfg.kind) then wk.(pc := RefetchCreated)
      else ChildCreated(cfg, wk, o)
    case RefetchCreated =>
      if o.fails || o.version >= |history| then wk.(pc := END)
      else ChildCreated(cfg, wk.(inst := Load(history, o.version)), o)
    case UpdateChild => wk.(pc := if o.fails then END else Observe(false))
    case Observe(justCreated) => Observed(cfg, wk, o, justCreated)
  }

  /** What follows the status decision of a Service, and the deadline check of a cluster. */
  function ResumeService(cfg: Config, wk: Worker, o: Outcome): Worker
    requires InServicePart(wk.pc)
  {
    match wk.pc
    case GetBase => wk.(pc := if o.fails then END else if o.found then UpdateBase else CreateBase)
    case CreateBase =>
      if o.fails then WarnAndEnd(wk, WarningEntry("OperatorCreateService", o.error), o.clock) else wk.(pc := Deadline)
    case UpdateBase => wk.(pc := if o.fails then END else Deadline)
    case Deadline => DeadlineChecked(cfg, wk, o)
    case ExitCheck => if o.fails then wk.(pc := END) else ExitChecked(cfg, wk, o)
    case CullCheck =>
      var running := LastIs(wk.inst.status.conditions, Running);
      var d := CullDecide(cfg.limits.timeout, running, o.probe, o.clock.before);
      wk.(pc := if d.Cull? then Delete(END, Inactive) else END)
  }

  /** How a worker goes on after a call that stores nothing. */
  function Resume(cfg: Config, history: seq<Revision>, wk: Worker, o: Outcome): Worker {
    if InRuntime(wk.pc) then ResumeRuntime(cfg, history, wk, o)
    else if InServicePart(wk.pc) then ResumeService(cfg, wk, o)
    else
      match wk.pc
      case PushStopped => Finalize(wk)
      case Collect =>
        if o.fails then wk.(pc := AfterFinalizers(wk.inst))
        else wk.(pc := PutFinalizers(AfterFinalizers(wk.inst)), collected := true,
                 inst := wk.inst.(finalizers := wk.inst.finalizers - {LogsFinalizer}))
      case Refetch(stage) =>
        if o.fails || o.version >= |history| then wk.(pc := END)
        else Refetched(cfg, wk.(inst := Load(history, o.version)), stage)
      case Ttl => TtlChecked(cfg, wk, o)
      case Push(next) => wk.(pc := if wk.inst.status.conditions == [] then Idle(true) else next)
      case _ => wk
  }

  /** How a worker goes on after its write was stored; the response replaces its copy. */
  function Wrote(cfg: Config, wk: Worker): Worker {
    match wk.pc
    case WriteStart => if Clustered(cfg.kind) then wk.(pc := Refetch(StartSet)) else Dispatch(cfg, wk)
    case AddLogs => if Clustered(cfg.kind) then wk.(pc := Refetch(LogsAdded)) else AfterLogs(cfg, wk)
    case AddStatus => wk.(pc := if Clustered(cfg.kind) then Refetch(StatusAdded) else GetChild)
    case PutFinalizers(next) => wk.(pc := next)
    case Write(onOk, _) => wk.(pc := onOk)
    case _ => wk
  }

  predicate WritesStatus(pc: Pc) { pc.Write? || pc.WriteStart? }

  predicate WritesFinalizers(pc: Pc) { pc.AddLogs? || pc.AddStatus? || pc.PutFinalizers? }

  function AfterFailedWrite(pc: Pc): Pc { if pc.Write? then pc.onFail else END }

  /** The revision a write would store: status writes keep metadata, metadata writes keep status. */
  function NewRevision(current: Revision, wk: Worker): Revision {
    if WritesStatus(wk.pc) then current.(status := wk.inst.status, cause := StatusWrite)
    else current.(finalizers := wk.inst.finalizers, cause := FinalizerWrite(wk.collected))
  }

  function Current(w: World): Revision
    requires w.history != []
  {
    w.history[|w.history| - 1]
  }

  /** A write is stored only on the current version, and a deleting object gets no new finalizers. */
  predicate Acceptable(w: World, wk: Worker)
    requires w.history != []
  {
    && !w.gone && wk.inst.version == |w.history| - 1
    && (Current(w).deleting && WritesFinalizers(wk.pc) ==> wk.inst.finalizers <= Current(w).finalizers)
  }

  predicate Accepted(w: World, wk: Worker, o: Outcome)
    requires w.history != []
  {
    !o.fails && Acceptable(w, wk)
  }

  function Stored(w: World, r: Revision): World {
    w.(history := w.history + [r], gone := w.gone || (r.deleting && r.finalizers == {}))
  }

  /** The server's side of a deletion: objects with finalizers are marked, others vanish. */
  function Remove(w: World): World
    requires w.history != []
  {
    var r := Current(w);
    if w.gone || r.deleting then w
    else if r.finalizers == {} then w.(gone := true)
    else Stored(w, r.(deleting := true, cause := Deletion))
  }

  function Park(w: World, id: nat, wk: Worker): World {
    if wk.pc.Idle? then w.(workers := w.workers - {id}, panicked := w.panicked || wk.pc.panicked)
    else w.(workers := w.workers[id := wk])
  }

  function StoppedPush(clock: Clock): Condition {
    Condition(Stopped, True, clock.update, clock.transition, "OperatorFinalizer", "Operation stopped in finalizer")
  }

  /** What the control plane sees after a worker's step. */
  function Pushes(w: World, wk: Worker, o: Outcome): Option<Condition> {
    if o.fails then w.pushed
    else if wk.pc.PushStopped? then Some(StoppedPush(o.clock))
    else if wk.pc.Push? && wk.inst.status.conditions != [] then LastOf(wk.inst.status.conditions)
    else w.pushed
  }

  predicate Writes(pc: Pc) { WritesStatus(pc) || WritesFinalizers(pc) }

  /** A version-checked write. */
  function StepWrite(cfg: Config, w: World, id: nat, wk: Worker, o: Outcome): (w': World)
    requires w.history != []
    ensures w.history <= w'.history
  {
    if Accepted(w, wk, o) then
      var w1 := Stored(w, NewRevision(Current(w), wk));
      Park(w1, id, Wrote(cfg, wk.(inst := Load(w1.history, |w.history|))))
    else Park(w, id, wk.(pc := AfterFailedWrite(wk.pc)))
  }

  function Issued(w: World, wk: Worker): World
    requires wk.pc.Delete?
  {
    w.(deletes := w.deletes + [Deleted(wk.inst.version, wk.pc.reason)])
  }

  /** A delete carries no version check. */
  function StepDelete(w: World, id: nat, wk: Worker, o: Outcome): (w': World)
    requires w.history != [] && wk.pc.Delete?
    ensures w.history <= w'.history
  {
    if o.fails || w.gone then Park(Issued(w, wk), id, wk.(pc := END))
    else Park(Remove(Issued(w, wk)), id, wk.(pc := wk.pc.next))
  }

  /** What a call that stores nothing leaves behind: a push, or the record of a create, whether or not it succeeded. */
  function Called(w: World, wk: Worker, o: Outcome): World {
    w.(pushed := Pushes(w, wk, o),
       creates := if wk.pc.CreateChild? then w.creates + [|w.history|] else w.creates,
       bases := if wk.pc.CreateBase? then w.bases + 1 else w.bases)
  }

  /** A write or delete that takes effect while its response is lost: the worker goes on as after a failure. */
  function Lost(w: World, id: nat, wk: Worker): (w': World)
    requires w.history != []
    ensures w.history <= w'.history
  {
    if Writes(wk.pc) && Acceptable(w, wk) then
      Park(Stored(w, NewRevision(Current(w), wk)), id, wk.(pc := AfterFailedWrite(wk.pc)))
    else if wk.pc.Delete? then Park(Remove(Issued(w, wk)), id, wk.(pc := END))
    else w
  }

  /** Any other call leaves the operation as stored. */
  function StepRead(cfg: Config, w: World, id: nat, wk: Worker, o: Outcome): (w': World)
    ensures w'.history == w.history
  {
    Park(Called(w, wk, o), id, Resume(cfg, w.history, wk, o))
  }

  /** One API call of one worker. */
  function Step(cfg: Config, w: World, id: nat, o: Outcome): (w': World)
    requires w.history != [] && id in w.workers
    ensures w.history <= w'.history
  {
    var wk := w.workers[id];
    if Writes(wk.pc) then StepWrite(cfg, w, id, wk, o)
    else if wk.pc.Delete? then StepDelete(w, id, wk, o)
    else StepRead(cfg, w, id, wk, o)
  }

  /** Another party replaces the finalizers that are not ours; a deleting object gets no new ones. */
  function Edited(r: Revision, foreign: set<Finalizer>): Revision {
    var ours := {LogsFinalizer, StatusFinalizer};
    var theirs := if r.deleting then foreign * r.finalizers else foreign;
    r.(finalizers := r.finalizers * ours + (theirs - ours), cause := External)
  }

  /** A read may show any revision, also of an operation that is gone: the reconciler reads from a cache. */
  function Next(cfg: Config, w: World, e: Event): (w': World)
    requires w.history != []
    ensures w.history <= w'.history
  {
    match e
    case Begin(id, version, clock) =>
      if id in w.workers || version >= |w.history| then w else Park(w, id, Start(cfg, Load(w.history, version), clock))
    case Act(id, o) => if id in w.workers then Step(cfg, w, id, o) else w
    case Lose(id) => if id in w.workers then Lost(w, id, w.workers[id]) else w
    case Crash(id) => w.(workers := w.workers - {id})
    case RequestDeletion => Remove(w)
    case Edit(foreign) =>
      if w.gone then w
      else
        Stored(w, Edited(Current(w), foreign))
  }

  /** A run: the worlds it goes through from a new operation on, and the event between each two. */
  ghost predicate IsRun(cfg: Config, worlds: seq<World>, events: seq<Event>) {
    && |worlds| == |events| + 1
    && (exists finalizers: set<Finalizer> :: worlds[0] == Initial(finalizers))
    && (forall i {:trigger events[i]} :: 0 <= i < |events| ==>
          worlds[i].history != [] && worlds[i + 1] == Next(cfg, worlds[i], events[i]))
  }
}
