/** The theorems about whole runs of the reconcile protocol. */
module ProtocolRuns {
  import opened Prelude
  import opened Conditions
  import opened ConditionHistory
  import opened Timing
  import opened Protocol
  import opened ProtocolSafety

  ghost predicate DeletesOk(cfg: Config, h: seq<Revision>, deletes: seq<Deleted>) {
    forall d :: d in deletes ==> d.version < |h| && TtlDue(cfg, h[d.version].status, d.reason)
  }

  ghost predicate WorldOk(cfg: Config, w: World) {
    && HistoryOk(cfg, w.history)
    && (forall id :: id in w.workers ==> WorkerOk(cfg, w.history, w.workers[id]) && !w.workers[id].pc.Idle?)
    && (Marking(cfg.kind) ==> !w.panicked)
    && DeletesOk(cfg, w.history, w.deletes)
  }

  // ---- storing a revision ----

  lemma {:induction false} HistoryGrows(cfg: Config, h: seq<Revision>, r: Revision)
    requires HistoryOk(cfg, h) && Good(cfg, r.status)
    requires Follows(cfg.kind, h[|h| - 1].status, r.status) && FinalizersFollow(h[|h| - 1], r)
    ensures HistoryOk(cfg, h + [r])
  {
  }

  lemma {:induction false} WorkerKept(cfg: Config, h: seq<Revision>, r: Revision, wk: Worker)
    requires WorkerOk(cfg, h, wk)
    ensures WorkerOk(cfg, h + [r], wk)
  {
    assert (h + [r])[wk.inst.version] == h[wk.inst.version];
  }

  lemma {:induction false} FollowsSelf(kind: Kind, s: Status)
    ensures Follows(kind, s, s)
  {
  }

  /** A new revision with an allowed status and finalizers keeps the world consistent. */
  lemma {:induction false} StoredOk(cfg: Config, w: World, r: Revision)
    requires WorldOk(cfg, w) && Good(cfg, r.status)
    requires Follows(cfg.kind, Current(w).status, r.status) && FinalizersFollow(Current(w), r)
    ensures WorldOk(cfg, Stored(w, r))
  {
    HistoryGrows(cfg, w.history, r);
    forall id | id in w.workers
      ensures WorkerOk(cfg, w.history + [r], w.workers[id])
    {
      WorkerKept(cfg, w.history, r, w.workers[id]);
    }
  }

  lemma {:induction false} RemoveOk(cfg: Config, w: World)
    requires WorldOk(cfg, w)
    ensures WorldOk(cfg, Remove(w))
  {
    FollowsSelf(cfg.kind, Current(w).status);
    StoredOk(cfg, w, Current(w).(deleting := true, cause := Deletion));
  }

  lemma {:induction false} ParkOk(cfg: Config, w: World, id: nat, wk: Worker)
    requires WorldOk(cfg, w) && WorkerOk(cfg, w.history, wk)
    ensures WorldOk(cfg, Park(w, id, wk))
  {
  }

  lemma {:induction false} StartedGood(cfg: Config, s: Status, start: Option<int>)
    requires Good(cfg, s) && s.start.None?
    ensures Good(cfg, s.(start := start)) && Follows(cfg.kind, s, s.(start := start))
  {
  }

  /** The revision a consistent worker stores is an allowed one. */
  lemma {:induction false} NewRevisionOk(cfg: Config, h: seq<Revision>, wk: Worker)
    requires HistoryOk(cfg, h) && WorkerOk(cfg, h, wk) && wk.inst.version == |h| - 1
    requires WritesStatus(wk.pc) || WritesFinalizers(wk.pc)
    requires h[|h| - 1].deleting && WritesFinalizers(wk.pc) ==> wk.inst.finalizers <= h[|h| - 1].finalizers
    ensures var r := NewRevision(h[|h| - 1], wk);
            Good(cfg, r.status) && Follows(cfg.kind, h[|h| - 1].status, r.status) && FinalizersFollow(h[|h| - 1], r)
  {
    var base := h[|h| - 1];
    if wk.pc.WriteStart? {
      StartedGood(cfg, base.status, wk.inst.status.start);
    }
    FollowsSelf(cfg.kind, base.status);
  }

  lemma {:induction false} StatusWroteOk(cfg: Config, h: seq<Revision>, wk: Worker)
    requires HistoryOk(cfg, h) && WorkerOk(cfg, h, wk) && wk.inst.version == |h| - 1 && WritesStatus(wk.pc)
    ensures var h1 := h + [NewRevision(h[|h| - 1], wk)];
            WorkerOk(cfg, h1, Wrote(cfg, wk.(inst := Load(h1, |h|))))
  {
    var h1 := h + [NewRevision(h[|h| - 1], wk)];
    var again := wk.(inst := Load(h1, |h|));
    if wk.pc.Write? {
      TakeUp(cfg, h1, again.(pc := wk.pc.onOk));
    } else if Clustered(cfg.kind) {
      TakeUp(cfg, h1, again.(pc := Refetch(StartSet)));
    } else {
      DispatchOk(cfg, h1, again);
    }
  }

  lemma {:induction false} FinalizersWroteOk(cfg: Config, h: seq<Revision>, wk: Worker)
    requires HistoryOk(cfg, h) && WorkerOk(cfg, h, wk) && wk.inst.version == |h| - 1 && WritesFinalizers(wk.pc)
    ensures var h1 := h + [NewRevision(h[|h| - 1], wk)];
            WorkerOk(cfg, h1, Wrote(cfg, wk.(inst := Load(h1, |h|))))
  {
    var h1 := h + [NewRevision(h[|h| - 1], wk)];
    var again := wk.(inst := Load(h1, |h|));
    if wk.pc.PutFinalizers? {
      TakeUp(cfg, h1, again.(pc := wk.pc.next));
    } else if wk.pc.AddStatus? {
      TakeUp(cfg, h1, again.(pc := if Clustered(cfg.kind) then Refetch(StatusAdded) else GetChild));
    } else if Clustered(cfg.kind) {
      TakeUp(cfg, h1, again.(pc := Refetch(LogsAdded)));
    } else {
      AfterLogsOk(cfg, h1, again);
    }
  }

  // ---- one step ----

  /** When a cluster worker is about to read the operation again, the answer shows the status it holds. */
  ghost predicate Rereads(cfg: Config, w: World, e: Event) {
    e.Act? && e.id in w.workers && (w.workers[e.id].pc.Refetch? || w.workers[e.id].pc.RefetchCreated?) ==>
      RefetchesSame(cfg, w.history, w.workers[e.id], e.outcome)
  }

  lemma {:induction false} StoreStepOk(cfg: Config, w: World, wk: Worker)
    requires WorldOk(cfg, w) && WorkerOk(cfg, w.history, wk) && Writes(wk.pc) && wk.inst.version == |w.history| - 1
    requires Current(w).deleting && WritesFinalizers(wk.pc) ==> wk.inst.finalizers <= Current(w).finalizers
    ensures WorldOk(cfg, Stored(w, NewRevision(Current(w), wk)))
  {
    NewRevisionOk(cfg, w.history, wk);
    StoredOk(cfg, w, NewRevision(Current(w), wk));
  }

  lemma {:induction false} WroteOk(cfg: Config, h: seq<Revision>, wk: Worker)
    requires HistoryOk(cfg, h) && WorkerOk(cfg, h, wk) && wk.inst.version == |h| - 1 && Writes(wk.pc)
    ensures var h1 := h + [NewRevision(h[|h| - 1], wk)];
            WorkerOk(cfg, h1, Wrote(cfg, wk.(inst := Load(h1, |h|))))
  {
    if WritesStatus(wk.pc) {
      StatusWroteOk(cfg, h, wk);
    } else {
      FinalizersWroteOk(cfg, h, wk);
    }
  }

  lemma {:induction false} AcceptedOk(cfg: Config, w: World, id: nat, wk: Worker)
    requires HistoryOk(cfg, w.history) && WorldOk(cfg, Stored(w, NewRevision(Current(w), wk)))
    requires WorkerOk(cfg, w.history, wk) && Writes(wk.pc) && wk.inst.version == |w.history| - 1
    ensures var w1 := Stored(w, NewRevision(Current(w), wk));
            WorldOk(cfg, Park(w1, id, Wrote(cfg, wk.(inst := Load(w1.history, |w.history|)))))
  {
    var h := w.history;
    var w1 := Stored(w, NewRevision(Current(w), wk));
    assert w1.history == h + [NewRevision(h[|h| - 1], wk)];
    var again := Wrote(cfg, wk.(inst := Load(w1.history, |h|)));
    assert WorkerOk(cfg, w1.history, again) by {
      WroteOk(cfg, h, wk);
    }
    ParkOk(cfg, w1, id, again);
  }

  lemma {:induction false} RejectedOk(cfg: Config, w: World, id: nat, wk: Worker)
    requires WorldOk(cfg, w) && WorkerOk(cfg, w.history, wk) && Writes(wk.pc)
    ensures WorldOk(cfg, Park(w, id, wk.(pc := AfterFailedWrite(wk.pc))))
  {
    FailedWriteOk(cfg, w.history, wk);
    ParkOk(cfg, w, id, wk.(pc := AfterFailedWrite(wk.pc)));
  }

  lemma {:induction false} WriteStepOk(cfg: Config, w: World, id: nat, wk: Worker, o: Outcome)
    requires WorldOk(cfg, w) && WorkerOk(cfg, w.history, wk) && Writes(wk.pc)
    ensures WorldOk(cfg, StepWrite(cfg, w, id, wk, o))
  {
    if Accepted(w, wk, o) {
      StoreStepOk(cfg, w, wk);
      AcceptedOk(cfg, w, id, wk);
    } else {
      RejectedOk(cfg, w, id, wk);
    }
  }

  lemma {:induction false} FailedWriteOk(cfg: Config, h: seq<Revision>, wk: Worker)
    requires WorkerOk(cfg, h, wk) && Writes(wk.pc)
    ensures WorkerOk(cfg, h, wk.(pc := AfterFailedWrite(wk.pc)))
  {
  }

  lemma {:induction false} DeleteStepOk(cfg: Config, w: World, id: nat, wk: Worker, o: Outcome)
    requires WorldOk(cfg, w) && WorkerOk(cfg, w.history, wk) && wk.pc.Delete?
    ensures WorldOk(cfg, StepDelete(w, id, wk, o))
  {
    DeleteIssuedOk(cfg, w, wk);
    ParkOk(cfg, if o.fails || w.gone then Issued(w, wk) else Remove(Issued(w, wk)), id, wk.(pc := END));
  }

  lemma {:induction false} LostOk(cfg: Config, w: World, id: nat, wk: Worker)
    requires WorldOk(cfg, w) && WorkerOk(cfg, w.history, wk)
    ensures WorldOk(cfg, Lost(w, id, wk))
  {
    if Writes(wk.pc) && Acceptable(w, wk) {
      var r := NewRevision(Current(w), wk);
      StoreStepOk(cfg, w, wk);
      FailedWriteOk(cfg, w.history, wk);
      WorkerKept(cfg, w.history, r, wk.(pc := AfterFailedWrite(wk.pc)));
      ParkOk(cfg, Stored(w, r), id, wk.(pc := AfterFailedWrite(wk.pc)));
    } else if wk.pc.Delete? {
      DeleteIssuedOk(cfg, w, wk);
      ParkOk(cfg, Remove(Issued(w, wk)), id, wk.(pc := END));
    }
  }

  lemma {:induction false} DeleteIssuedOk(cfg: Config, w: World, wk: Worker)
    requires WorldOk(cfg, w) && WorkerOk(cfg, w.history, wk) && wk.pc.Delete?
    ensures WorldOk(cfg, Issued(w, wk)) && WorldOk(cfg, Remove(Issued(w, wk)))
    ensures WorkerOk(cfg, Remove(Issued(w, wk)).history, wk.(pc := END))
  {
    RemoveOk(cfg, Issued(w, wk));
  }

  lemma {:induction false} ReadStepOk(cfg: Config, w: World, id: nat, wk: Worker, o: Outcome)
    requires WorldOk(cfg, w) && WorkerOk(cfg, w.history, wk)
    requires wk.pc.Refetch? || wk.pc.RefetchCreated? ==> RefetchesSame(cfg, w.history, wk, o)
    requires !Writes(wk.pc) && !wk.pc.Delete? && !wk.pc.Idle?
    ensures WorldOk(cfg, StepRead(cfg, w, id, wk, o))
  {
    ResumeOk(cfg, w.history, wk, o);
    var w1 := Called(w, wk, o);
    ParkOk(cfg, w1, id, Resume(cfg, w.history, wk, o));
  }

  lemma {:induction false} NextOk(cfg: Config, w: World, e: Event)
    requires WorldOk(cfg, w) && Rereads(cfg, w, e)
    ensures WorldOk(cfg, Next(cfg, w, e))
  {
    match e
    case Begin(id, version, clock) =>
      if id !in w.workers && version < |w.history| {
        StartOk(cfg, w.history, version, clock);
        ParkOk(cfg, w, id, Start(cfg, Load(w.history, version), clock));
      }
    case Act(id, o) =>
      if id in w.workers {
        var wk := w.workers[id];
        if Writes(wk.pc) {
          WriteStepOk(cfg, w, id, wk, o);
        } else if wk.pc.Delete? {
          DeleteStepOk(cfg, w, id, wk, o);
        } else {
          ReadStepOk(cfg, w, id, wk, o);
        }
      }
    case Lose(id) =>
      if id in w.workers {
        LostOk(cfg, w, id, w.workers[id]);
      }
    case Crash(id) =>
    case RequestDeletion => RemoveOk(cfg, w);
    case Edit(foreign) =>
      if !w.gone {
        FollowsSelf(cfg.kind, Current(w).status);
        StoredOk(cfg, w, Edited(Current(w), foreign));
      }
  }

  lemma {:induction false} InitialOk(cfg: Config, finalizers: set<Finalizer>)
    ensures WorldOk(cfg, Initial(finalizers))
  {
  }

  // ---- runs with fresh reads ----

  predicate Foreigns(cause: Cause) { cause.External? || cause.Deletion? }

  /** The read is no older than the reconciler's last write: what came later are edits by others and deletion marks. */
  ghost predicate CaughtUp(h: seq<Revision>, version: nat) {
    version < |h| && forall i :: version < i < |h| ==> Foreigns(h[i].cause)
  }

  /** One worker at a time, and no read of the operation is older than its last write. */
  ghost predicate FreshEvent(w: World, e: Event) {
    && (e.Begin? ==> e.id == 0 && CaughtUp(w.history, e.version))
    && (e.Act? ==> e.id == 0 && CaughtUp(w.history, e.outcome.version))
    && (e.Lose? ==> e.id == 0)
  }

  ghost predicate Fresh(worlds: seq<World>, events: seq<Event>)
    requires |worlds| == |events| + 1
  {
    forall i {:trigger events[i]} :: 0 <= i < |events| ==> FreshEvent(worlds[i], events[i])
  }

  /** Edits by other parties and deletion marks leave the status alone. */
  ghost predicate ForeignsKeepStatus(h: seq<Revision>) {
    forall i :: 0 < i < |h| && Foreigns(h[i].cause) ==> h[i].status == h[i - 1].status
  }

  lemma {:induction false} CaughtUpStatus(h: seq<Revision>, version: nat)
    requires ForeignsKeepStatus(h) && CaughtUp(h, version)
    ensures h[version].status == h[|h| - 1].status
    decreases |h| - version
  {
    if version < |h| - 1 {
      CaughtUpStatus(h, version + 1);
      assert h[version + 1].status == h[version].status;
    }
  }

  /** The lone worker, unless it is only about to report, holds a revision whose status is still the stored one. */
  ghost predicate SoloOk(w: World) {
    && w.history != [] && w.workers.Keys <= {0} && ForeignsKeepStatus(w.history)
    && (0 in w.workers && w.workers[0].pc != Push(END) ==>
          var v := w.workers[0].inst.version;
          v < |w.history| && w.history[v].status == Current(w).status)
  }

  lemma {:induction false} DispatchKeepsVersion(cfg: Config, wk: Worker)
    ensures Dispatch(cfg, wk).inst.version == wk.inst.version
    ensures AfterLogs(cfg, wk).inst.version == wk.inst.version
  {
  }

  /** Apart from reading the operation again, a worker never changes which revision it works from. */
  lemma {:induction false} ResumeVersion(cfg: Config, h: seq<Revision>, wk: Worker, o: Outcome)
    ensures Resume(cfg, h, wk, o).inst.version in {wk.inst.version, o.version}
  {
    if wk.pc.Refetch? && o.version < |h| {
      DispatchKeepsVersion(cfg, wk.(inst := Load(h, o.version)));
    }
  }

  lemma {:induction false} SoloNext(cfg: Config, w: World, e: Event)
    requires WorldOk(cfg, w) && SoloOk(w) && FreshEvent(w, e)
    ensures Rereads(cfg, w, e) && SoloOk(Next(cfg, w, e))
  {
    SoloRereads(cfg, w, e);
    SoloKept(cfg, w, e);
  }

  lemma {:induction false} SoloRereads(cfg: Config, w: World, e: Event)
    requires WorldOk(cfg, w) && SoloOk(w) && FreshEvent(w, e)
    ensures Rereads(cfg, w, e)
  {
    if e.Act? && 0 in w.workers {
      assert WorkerOk(cfg, w.history, w.workers[0]);
      CaughtUpStatus(w.history, e.outcome.version);
    }
  }

  lemma {:induction false} SoloKept(cfg: Config, w: World, e: Event)
    requires WorldOk(cfg, w) && SoloOk(w) && FreshEvent(w, e)
    ensures SoloOk(Next(cfg, w, e))
  {
    if e.Begin? && e.id !in w.workers {
      var wk := StartVersion(cfg, w, e);
      CaughtUpStatus(w.history, e.version);
      SoloPark(w, wk);
    } else if e.Act? && e.id in w.workers {
      SoloAct(cfg, w, w.workers[0], e.outcome);
    } else if e.Lose? && e.id in w.workers {
      assert WorkerOk(cfg, w.history, w.workers[0]);
      SoloLost(w, w.workers[0]);
    } else if e.RequestDeletion? {
      SoloRemove(w);
    } else if e.Edit? && !w.gone {
      SoloStored(w, Edited(Current(w), e.foreign));
    }
  }

  lemma {:induction false} SoloAct(cfg: Config, w: World, wk: Worker, o: Outcome)
    requires SoloOk(w) && 0 in w.workers && wk == w.workers[0] && CaughtUp(w.history, o.version)
    ensures SoloOk(Step(cfg, w, 0, o))
  {
    if Writes(wk.pc) {
      SoloWrite(cfg, w, wk, o);
    } else if wk.pc.Delete? {
      SoloDelete(w, wk, o);
    } else {
      SoloRead(cfg, w, wk, o);
    }
  }

  /** What other parties store keeps the status, so the worker's copy stays in step. */
  lemma {:induction false} SoloStored(w: World, r: Revision)
    requires SoloOk(w) && Foreigns(r.cause) && r.status == Current(w).status
    ensures SoloOk(Stored(w, r))
  {
  }

  lemma {:induction false} SoloRemove(w: World)
    requires SoloOk(w)
    ensures SoloOk(Remove(w))
  {
    SoloStored(w, Current(w).(deleting := true, cause := Deletion));
  }

  lemma {:induction false} StartVersion(cfg: Config, w: World, e: Event) returns (wk: Worker)
    requires e.Begin? && e.version < |w.history|
    ensures wk == Start(cfg, Load(w.history, e.version), e.clock) && wk.inst.version == e.version
  {
    wk := Start(cfg, Load(w.history, e.version), e.clock);
    DispatchKeepsVersion(cfg, Worker(END, Load(w.history, e.version), false));
  }

  lemma {:induction false} SoloPark(w: World, wk: Worker)
    requires w.history != [] && w.workers.Keys <= {0} && ForeignsKeepStatus(w.history)
    requires wk.pc.Idle? || wk.pc == Push(END)
             || (wk.inst.version < |w.history| && w.history[wk.inst.version].status == Current(w).status)
    ensures SoloOk(Park(w, 0, wk))
  {
  }

  lemma {:induction false} SoloRead(cfg: Config, w: World, wk: Worker, o: Outcome)
    requires SoloOk(w) && 0 in w.workers && wk == w.workers[0] && CaughtUp(w.history, o.version)
    ensures SoloOk(StepRead(cfg, w, 0, wk, o))
  {
    CaughtUpStatus(w.history, o.version);
    ResumeVersion(cfg, w.history, wk, o);
    if wk.pc == Push(END) {
      assert Resume(cfg, w.history, wk, o).pc.Idle?;
    }
    SoloPark(Called(w, wk, o), Resume(cfg, w.history, wk, o));
  }

  lemma {:induction false} SoloDelete(w: World, wk: Worker, o: Outcome)
    requires SoloOk(w) && 0 in w.workers && wk == w.workers[0] && wk.pc.Delete?
    ensures SoloOk(StepDelete(w, 0, wk, o))
  {
    var w1 := Issued(w, wk);
    var w2 := if o.fails || w.gone then w1 else Remove(w1);
    SoloRemove(w1);
    SoloPark(w2, wk.(pc := if o.fails || w.gone then END else wk.pc.next));
  }

  /** A write whose response is lost ends the pass, except that a Job still reports. */
  lemma {:induction false} SoloLost(w: World, wk: Worker)
    requires SoloOk(w) && 0 in w.workers && wk == w.workers[0]
    requires wk.pc.Write? ==> wk.pc.onFail == END || wk.pc.onFail == Push(END)
    ensures SoloOk(Lost(w, 0, wk))
  {
    if Writes(wk.pc) && Acceptable(w, wk) {
      SoloPark(Stored(w, NewRevision(Current(w), wk)), wk.(pc := AfterFailedWrite(wk.pc)));
    } else if wk.pc.Delete? {
      SoloRemove(Issued(w, wk));
      SoloPark(Remove(Issued(w, wk)), wk.(pc := END));
    }
  }

  lemma {:induction false} SoloWrite(cfg: Config, w: World, wk: Worker, o: Outcome)
    requires SoloOk(w) && 0 in w.workers && wk == w.workers[0] && Writes(wk.pc)
    ensures SoloOk(StepWrite(cfg, w, 0, wk, o))
  {
    if Accepted(w, wk, o) {
      var w1 := Stored(w, NewRevision(Current(w), wk));
      var again := wk.(inst := Load(w1.history, |w.history|));
      DispatchKeepsVersion(cfg, again);
      SoloPark(w1, Wrote(cfg, again));
    } else {
      SoloPark(w, wk.(pc := AfterFailedWrite(wk.pc)));
    }
  }

  lemma {:induction false} FreshRunOk(cfg: Config, worlds: seq<World>, events: seq<Event>, i: nat)
    requires IsRun(cfg, worlds, events) && Fresh(worlds, events) && i <= |events|
    ensures WorldOk(cfg, worlds[i]) && SoloOk(worlds[i])
  {
    if i == 0 {
      var finalizers: set<Finalizer> :| worlds[0] == Initial(finalizers);
      InitialOk(cfg, finalizers);
    } else {
      FreshRunOk(cfg, worlds, events, i - 1);
      var e := events[i - 1];
      SoloNext(cfg, worlds[i - 1], e);
      NextOk(cfg, worlds[i - 1], e);
    }
  }

  /** The runs the main theorems speak of: any run at all, except that cluster runs need fresh reads. */
  ghost predicate Admitted(cfg: Config, worlds: seq<World>, events: seq<Event>) {
    IsRun(cfg, worlds, events) && (Clustered(cfg.kind) ==> Fresh(worlds, events))
  }

  /** Every world of every such run is consistent. */
  lemma {:induction false} RunOk(cfg: Config, worlds: seq<World>, events: seq<Event>, i: nat)
    requires Admitted(cfg, worlds, events) && i <= |events|
    ensures WorldOk(cfg, worlds[i])
  {
    if Clustered(cfg.kind) {
      FreshRunOk(cfg, worlds, events, i);
    } else if i == 0 {
      var finalizers: set<Finalizer> :| worlds[0] == Initial(finalizers);
      InitialOk(cfg, finalizers);
    } else {
      RunOk(cfg, worlds, events, i - 1);
      var e := events[i - 1];
      NextOk(cfg, worlds[i - 1], e);
    }
  }

  /** A world some admitted run goes through. */
  ghost predicate Reachable(cfg: Config, w: World) {
    exists worlds: seq<World>, events: seq<Event> :: Admitted(cfg, worlds, events) && w in worlds
  }

  /** A world some run with fresh reads goes through. */
  ghost predicate FreshlyReachable(cfg: Config, w: World) {
    exists worlds: seq<World>, events: seq<Event> :: IsRun(cfg, worlds, events) && Fresh(worlds, events) && w in worlds
  }

  lemma {:induction false} ReachableOk(cfg: Config, w: World)
    requires Reachable(cfg, w)
    ensures WorldOk(cfg, w)
  {
    var worlds: seq<World>, events: seq<Event> :| Admitted(cfg, worlds, events) && w in worlds;
    var i :| 0 <= i < |worlds| && worlds[i] == w;
    RunOk(cfg, worlds, events, i);
  }

  // ---- end states ----

  lemma {:induction false} FollowsTransitive(kind: Kind, a: Status, b: Status, c: Status)
    requires Follows(kind, a, b) && Follows(kind, b, c)
    ensures Follows(kind, a, c)
  {
  }

  lemma {:induction false} HistoryFollows(cfg: Config, h: seq<Revision>, i: nat, j: nat)
    requires HistoryOk(cfg, h) && i <= j < |h|
    ensures Follows(cfg.kind, h[i].status, h[j].status)
    decreases j
  {
    if i < j {
      HistoryFollows(cfg, h, i, j - 1);
      FollowsTransitive(cfg.kind, h[i].status, h[j - 1].status, h[j].status);
    } else {
      FollowsSelf(cfg.kind, h[i].status);
    }
  }

  /**
   In every run, with any number of workers, stale reads, failed calls and crashes: no stored status holds two
   different end states, an operation once done stays done in the same end state, and a done Job or KfJob keeps
   its list.
   */
  lemma {:induction false} EndStatesAreFinal(cfg: Config, w: World, i: nat, j: nat)
    requires Reachable(cfg, w) && i <= j < |w.history|
    ensures var s, t := w.history[i].status, w.history[j].status;
            && OneTerminal(t.conditions)
            && (Done(s.conditions) ==> Done(t.conditions))
            && (forall k :: Terminal(k) && Done(s.conditions) ==> (Has(t.conditions, k) <==> Has(s.conditions, k)))
            && (Marking(cfg.kind) && Done(s.conditions) ==> t.conditions == s.conditions)
  {
    ReachableOk(cfg, w);
    HistoryFollows(cfg, w.history, i, j);
    assert Good(cfg, w.history[i].status) && Good(cfg, w.history[j].status);
  }

  /**
   The completion time is stored exactly with the end states that stamp it: every one for Jobs and KfJobs, so
   their TTL handling never reads a missing time; all but Stopped for Services and clusters.
   */
  lemma {:induction false} CompletionFollowsOutcome(cfg: Config, w: World, i: nat)
    requires Reachable(cfg, w) && i < |w.history|
    ensures var s := w.history[i].status;
            && (Marking(cfg.kind) ==> (s.completion.Some? <==> Done(s.conditions)) && !w.panicked)
            && (!Marking(cfg.kind) && Done(s.conditions) ==> (s.completion.None? <==> Has(s.conditions, Stopped)))
  {
    ReachableOk(cfg, w);
    assert Good(cfg, w.history[i].status);
  }

  /** A stored stop for the deadline is never early. */
  lemma {:induction false} DeadlineStopIsNotEarly(cfg: Config, w: World, i: nat, c: Condition)
    requires Reachable(cfg, w) && i < |w.history| && c in w.history[i].status.conditions
    requires c.kind == Stopped && c.reason == DEADLINE_REASON
    requires cfg.limits.deadline.Some? ==> -LONGEST <= cfg.limits.deadline.value <= LONGEST
    ensures var start := w.history[i].status.start;
            cfg.limits.deadline.Some? && start.Some? && c.updated >= start.value + SECOND * cfg.limits.deadline.value
  {
    ReachableOk(cfg, w);
    assert Good(cfg, w.history[i].status);
  }

  /** Every delete of a Job or KfJob with a TTL comes strictly after the stored completion + ttl. */
  lemma {:induction false} DeletesWaitForTtl(cfg: Config, w: World, d: Deleted)
    requires Reachable(cfg, w) && Marking(cfg.kind) && cfg.ttl.Some? && d in w.deletes
    ensures w.history != []
    ensures var s := Current(w).status;
            Done(s.conditions) && s.completion.Some? && d.reason.TtlAt?
            && d.reason.now > s.completion.value + SECOND * cfg.ttl.value
  {
    ReachableOk(cfg, w);
    DeletesFollowTtl(cfg, w, d);
  }

  lemma {:induction false} DeletesFollowTtl(cfg: Config, w: World, d: Deleted)
    requires HistoryOk(cfg, w.history) && DeletesOk(cfg, w.history, w.deletes)
    requires Marking(cfg.kind) && cfg.ttl.Some? && d in w.deletes
    ensures var s := Current(w).status;
            Done(s.conditions) && s.completion.Some? && d.reason.TtlAt?
            && d.reason.now > s.completion.value + SECOND * cfg.ttl.value
  {
    HistoryFollows(cfg, w.history, d.version, |w.history| - 1);
  }

  // ---- children are not created twice ----

  /** In every run a Job or KfJob that got past creation never goes back to Starting. */
  lemma {:induction false} ProgressIsKept(cfg: Config, w: World, i: nat, j: nat)
    requires Reachable(cfg, w) && Marking(cfg.kind) && i <= j < |w.history|
    ensures Progressed(w.history[i].status) ==> Progressed(w.history[j].status)
  {
    ReachableOk(cfg, w);
    HistoryFollows(cfg, w.history, i, j);
  }

  /** What rules out creating the child (again). */
  predicate RulesOutCreate(kind: Kind, s: Status) {
    if Marking(kind) then Progressed(s) else Clustered(kind) && s.conditions != []
  }

  ghost predicate CreatesOk(cfg: Config, h: seq<Revision>, creates: seq<nat>) {
    forall c :: c in creates ==> c <= |h| && forall i :: 0 <= i < c ==> !RulesOutCreate(cfg.kind, h[i].status)
  }

  lemma {:induction false} CreatesKept(cfg: Config, h: seq<Revision>, h1: seq<Revision>, creates: seq<nat>)
    requires CreatesOk(cfg, h, creates) && h <= h1
    ensures CreatesOk(cfg, h1, creates)
  {
    assert forall i :: 0 <= i < |h| ==> h1[i] == h[i];
  }

  predicate AtCreate(w: World, e: Event) { e.Act? && e.id in w.workers && w.workers[e.id].pc.CreateChild? }

  /** Creates are issued only by a worker that reached the create call. */
  lemma {:induction false} CreatesRecorded(cfg: Config, w: World, e: Event)
    requires w.history != []
    ensures Next(cfg, w, e).creates == if AtCreate(w, e) then w.creates + [|w.history|] else w.creates
  {
  }

  lemma {:induction false} NothingRulesOutCreate(cfg: Config, w: World, i: nat)
    requires WorldOk(cfg, w) && SoloOk(w) && 0 in w.workers && w.workers[0].pc.CreateChild? && i < |w.history|
    ensures !RulesOutCreate(cfg.kind, w.history[i].status)
  {
    var wk := w.workers[0];
    assert WorkerOk(cfg, w.history, wk);
    assert !RulesOutCreate(cfg.kind, Current(w).status);
    HistoryFollows(cfg, w.history, i, |w.history| - 1);
  }

  lemma {:induction false} CreateStepOk(cfg: Config, w: World, e: Event)
    requires WorldOk(cfg, w) && SoloOk(w) && FreshEvent(w, e) && CreatesOk(cfg, w.history, w.creates)
    ensures CreatesOk(cfg, Next(cfg, w, e).history, Next(cfg, w, e).creates)
  {
    var w' := Next(cfg, w, e);
    CreatesRecorded(cfg, w, e);
    if AtCreate(w, e) {
      forall i | 0 <= i < |w.history|
        ensures !RulesOutCreate(cfg.kind, w.history[i].status)
      {
        NothingRulesOutCreate(cfg, w, i);
      }
      assert CreatesOk(cfg, w.history, w'.creates);
    }
    CreatesKept(cfg, w.history, w'.history, w'.creates);
  }

  lemma {:induction false} CreatesRunOk(cfg: Config, worlds: seq<World>, events: seq<Event>, i: nat)
    requires IsRun(cfg, worlds, events) && Fresh(worlds, events) && i <= |events|
    ensures CreatesOk(cfg, worlds[i].history, worlds[i].creates)
  {
    if i > 0 {
      CreatesRunOk(cfg, worlds, events, i - 1);
      FreshRunOk(cfg, worlds, events, i - 1);
      var e := events[i - 1];
      CreateStepOk(cfg, worlds[i - 1], e);
    }
  }

  /**
   With fresh reads, no child create is issued once a stored status of a Job or KfJob got past creation, or
   once a cluster has any stored condition. A create is recorded with the number of revisions stored before it.
   */
  lemma {:induction false} ChildIsNotRecreated(cfg: Config, w: World, c: nat, i: nat)
    requires FreshlyReachable(cfg, w) && c in w.creates && i < c
    ensures i < |w.history| && !RulesOutCreate(cfg.kind, w.history[i].status)
  {
    var worlds: seq<World>, events: seq<Event> :| IsRun(cfg, worlds, events) && Fresh(worlds, events) && w in worlds;
    var k :| 0 <= k < |worlds| && worlds[k] == w;
    CreatesRunOk(cfg, worlds, events, k);
  }

  /**
   In every run, stale reads included: a worker that finds no child goes on to create it exactly when the status
   of the revision it loaded does not rule that out.
   */
  lemma {:induction false} CreateFollowsLoadedRevision(cfg: Config, w: World, id: nat, missing: Outcome)
    requires Reachable(cfg, w) && id in w.workers && w.workers[id].pc.GetChild? && !missing.fails && !missing.found
    ensures w.workers[id].inst.version < |w.history|
    ensures var wk := w.workers[id];
            Resume(cfg, w.history, wk, missing).pc.CreateChild? <==>
              !RulesOutCreate(cfg.kind, w.history[wk.inst.version].status)
  {
    ReachableOk(cfg, w);
    var wk := w.workers[id];
    assert WorkerOk(cfg, w.history, wk) && Good(cfg, wk.inst.status);
    MissingChildCreates(cfg, wk, MissingEntry(cfg.kind), missing);
  }

  lemma {:induction false} MissingChildCreates(cfg: Config, wk: Worker, stop: Entry, o: Outcome)
    requires WellFormed(wk.inst.status.conditions) && !Done(wk.inst.status.conditions)
    ensures MissingChild(cfg, wk, stop, o).pc.CreateChild? <==> !RulesOutCreate(cfg.kind, wk.inst.status)
  {
    ProgressedTail(wk.inst.status);
  }

  /** No finalizer has to be added before the runtime part of the pass. */
  predicate FinalizersInPlace(cfg: Config, r: Revision) {
    (cfg.logsFinalizers ==> LogsFinalizer in r.finalizers) && (cfg.statusFinalizers ==> StatusFinalizer in r.finalizers)
  }

  /** A pass over this revision goes straight to the child. */
  predicate GoesToChild(cfg: Config, r: Revision) {
    r.status.start.Some? && !r.deleting && !Done(r.status.conditions) && FinalizersInPlace(cfg, r)
  }

  /** The calls a pass may begin with when it does not go straight to the child. */
  predicate Preliminary(pc: Pc) {
    || pc.WriteStart? || pc.PushStopped? || pc.Collect? || pc.PutFinalizers?
    || pc.AddLogs? || pc.AddStatus? || pc.Ttl? || pc.Idle?
  }

  lemma {:induction false} StartGoesToChild(cfg: Config, h: seq<Revision>, version: nat, clock: Clock)
    requires version < |h|
    ensures var wk := Start(cfg, Load(h, version), clock);
            && wk.inst.version == version
            && if GoesToChild(cfg, h[version]) then wk == Worker(GetChild, Load(h, version), false)
               else Preliminary(wk.pc)
  {
  }

  predicate Creating(w: World) { 0 in w.workers && w.workers[0].pc.CreateChild? }

  /** A stale pass cannot store what it has to store first, so it does not get to the create call. */
  lemma {:induction false} PreliminaryEnds(cfg: Config, w: World, wk: Worker, o: Outcome)
    requires w.history != [] && wk.inst.version < |w.history| - 1 && w.workers == map[0 := wk] && Preliminary(wk.pc)
    ensures !Creating(Next(cfg, w, Act(0, o)))
  {
    if Writes(wk.pc) {
      assert !Accepted(w, wk, o);
    } else {
      assert !Resume(cfg, w.history, wk, o).pc.CreateChild?;
    }
  }

  lemma {:induction false} MissingAtChild(cfg: Config, w: World, wk: Worker, o: Outcome)
    requires w.history != [] && w.workers == map[0 := wk] && wk.pc.GetChild? && !o.fails && !o.found
    requires WellFormed(wk.inst.status.conditions) && !Done(wk.inst.status.conditions)
    ensures Creating(Next(cfg, w, Act(0, o))) <==> !RulesOutCreate(cfg.kind, wk.inst.status)
  {
    MissingChildCreates(cfg, wk, MissingEntry(cfg.kind), o);
    assert Resume(cfg, w.history, wk, o) == MissingChild(cfg, wk, MissingEntry(cfg.kind), o);
  }

  /**
   Freshness matters: a pass that loads an old revision and finds no child creates it, whatever was stored since,
   exactly when the old revision sends it to the child and does not rule the create out.
   */
  lemma {:induction false} StalePassCreatesAgain(
      cfg: Config, w: World, version: nat, clock: Clock, missing: Outcome, granted: Outcome)
    requires Reachable(cfg, w) && version < |w.history| - 1 && w.workers == map[] && !missing.fails && !missing.found
    ensures var w2 := Next(cfg, Next(cfg, w, Begin(0, version, clock)), Act(0, missing));
            Next(cfg, w2, Act(0, granted)).creates ==
              if GoesToChild(cfg, w.history[version]) && !RulesOutCreate(cfg.kind, w.history[version].status)
              then w.creates + [|w.history|] else w.creates
  {
    ReachableOk(cfg, w);
    StalePassCreates(cfg, w, version, clock, missing, granted);
  }

  lemma {:induction false} StalePassCreates(
      cfg: Config, w: World, version: nat, clock: Clock, missing: Outcome, granted: Outcome)
    requires HistoryOk(cfg, w.history) && version < |w.history| - 1 && w.workers == map[]
    requires !missing.fails && !missing.found
    ensures var w2 := Next(cfg, Next(cfg, w, Begin(0, version, clock)), Act(0, missing));
            Next(cfg, w2, Act(0, granted)).creates ==
              if GoesToChild(cfg, w.history[version]) && !RulesOutCreate(cfg.kind, w.history[version].status)
              then w.creates + [|w.history|] else w.creates
  {
    var wk := Start(cfg, Load(w.history, version), clock);
    var w1 := Next(cfg, w, Begin(0, version, clock));
    StartGoesToChild(cfg, w.history, version, clock);
    assert Good(cfg, w.history[version].status);
    CreatesRecorded(cfg, w, Begin(0, version, clock));
    CreatesRecorded(cfg, w1, Act(0, missing));
    var w2 := Next(cfg, w1, Act(0, missing));
    CreatesRecorded(cfg, w2, Act(0, granted));
    if GoesToChild(cfg, w.history[version]) {
      MissingAtChild(cfg, w1, wk, missing);
    } else if !wk.pc.Idle? {
      PreliminaryEnds(cfg, w1, wk, missing);
    }
    assert !AtCreate(w1, Act(0, missing)) && w2.history == w.history;
  }

  // ---- finalizers ----

  /**
   In every run, between consecutive revisions: the status finalizer never goes while the logs finalizer is
   there, the logs finalizer goes only in a pass that collected the logs, and neither comes once the operation
   is deleting or done.
   */
  lemma {:induction false} FinalizersAreOrdered(cfg: Config, w: World, i: nat)
    requires Reachable(cfg, w) && 0 < i < |w.history|
    ensures var r, t := w.history[i - 1], w.history[i];
            && (StatusFinalizer in r.finalizers - t.finalizers ==> LogsFinalizer !in r.finalizers)
            && (LogsFinalizer in r.finalizers - t.finalizers ==> t.cause == FinalizerWrite(true))
            && (LogsFinalizer in t.finalizers - r.finalizers || StatusFinalizer in t.finalizers - r.finalizers ==>
                  !r.deleting && !Done(r.status.conditions))
  {
    ReachableOk(cfg, w);
    assert FinalizersFollow(w.history[i - 1], w.history[i]);
  }
}
