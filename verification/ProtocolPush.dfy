/** What the control plane is told: pushes follow stored writes, and the last push is the last stored condition. */
module ProtocolPush {
  import opened Prelude
  import opened Conditions
  import opened Timing
  import opened Protocol
  import opened ProtocolSafety
  import opened ProtocolRuns

  /** In every run, with stale reads, failed calls and crashes, a push finds a condition to report. */
  lemma {:induction false} PushesFindACondition(cfg: Config, w: World, id: nat)
    requires Reachable(cfg, w) && id in w.workers && w.workers[id].pc.Push?
    ensures w.workers[id].inst.status.conditions != []
  {
    ReachableOk(cfg, w);
    assert WorkerOk(cfg, w.history, w.workers[id]);
  }

  /**
   One worker that does not crash and whose status writes and pushes are answered. Reads may be stale except for
   clusters. The last clause concerns Jobs only: they push their first Starting even when storing it was refused,
   so what they then push must be what is stored.
   */
  ghost predicate DeliveredEvent(cfg: Config, w: World, e: Event) {
    && w.history != [] && !e.Crash?
    && (e.Begin? ==> e.id == 0)
    && (e.Act? ==> e.id == 0)
    && (e.Lose? ==> e.id == 0 && (0 in w.workers ==> !w.workers[0].pc.Write?))
    && (Clustered(cfg.kind) ==> FreshEvent(w, e))
    && (e.Act? && 0 in w.workers ==>
          var wk := w.workers[0];
          && (wk.pc.Push? ==> !e.outcome.fails)
          && (wk.pc.Write? && wk.pc.onFail.Push? ==> Accepted(w, wk, e.outcome) || TellsStored(w, wk)))
  }

  /** The worker's last condition is the last one stored. */
  predicate TellsStored(w: World, wk: Worker)
    requires w.history != []
  {
    LastOf(wk.inst.status.conditions) == LastOf(Current(w).status.conditions)
  }

  ghost predicate DeliveredRun(cfg: Config, worlds: seq<World>, events: seq<Event>) {
    && IsRun(cfg, worlds, events)
    && (forall i {:trigger events[i]} :: 0 <= i < |events| ==> DeliveredEvent(cfg, worlds[i], events[i]))
  }

  ghost predicate PushLeads(pc: Pc) { pc.Write? ==> pc.onOk.Push? }

  predicate Pushing(w: World) { 0 in w.workers && w.workers[0].pc.Push? }

  /** Outside deletion: either the stored condition is about to be pushed, or it was the last one pushed. */
  ghost predicate PushedOk(cfg: Config, w: World) {
    && w.history != [] && w.workers.Keys <= {0}
    && (0 in w.workers ==> PushLeads(w.workers[0].pc))
    && (!Current(w).deleting ==>
          if Pushing(w) then AboutToTell(cfg, w, w.workers[0]) else w.pushed == LastOf(Current(w).status.conditions))
  }

  /** What the worker is about to push is the last condition stored; except for Jobs it holds the whole stored list. */
  ghost predicate AboutToTell(cfg: Config, w: World, wk: Worker)
    requires w.history != []
  {
    TellsStored(w, wk) && (cfg.kind != JobKind ==> wk.inst.status.conditions == Current(w).status.conditions)
  }

  // ---- every write is followed by a push ----

  lemma {:induction false} DispatchLeads(cfg: Config, wk: Worker)
    ensures var pc := Dispatch(cfg, wk).pc; !pc.Write? && !pc.Push?
    ensures var pc := AfterLogs(cfg, wk).pc; !pc.Write? && !pc.Push?
    ensures var pc := Finalize(wk).pc; !pc.Write? && !pc.Push?
  {
  }

  lemma {:induction false} MissingChildLeads(cfg: Config, wk: Worker, stop: Entry, o: Outcome)
    ensures var pc := MissingChild(cfg, wk, stop, o).pc; PushLeads(pc) && !pc.Push?
  {
  }

  lemma {:induction false} RuntimeLeads(cfg: Config, h: seq<Revision>, wk: Worker, o: Outcome)
    requires InRuntime(wk.pc)
    ensures var pc := ResumeRuntime(cfg, h, wk, o).pc; PushLeads(pc) && !pc.Push?
  {
    MissingChildLeads(cfg, wk, MissingEntry(cfg.kind), o);
  }

  lemma {:induction false} ServicePartLeads(cfg: Config, wk: Worker, o: Outcome)
    requires InServicePart(wk.pc)
    ensures var pc := ResumeService(cfg, wk, o).pc; PushLeads(pc) && !pc.Push?
  {
  }

  /** No call but a push or a write leads to a push, and every status write that succeeds does. */
  lemma {:induction false} ResumeLeads(cfg: Config, h: seq<Revision>, wk: Worker, o: Outcome)
    requires !Writes(wk.pc) && !wk.pc.Push?
    ensures var pc := Resume(cfg, h, wk, o).pc; PushLeads(pc) && !pc.Push?
  {
    if InRuntime(wk.pc) {
      RuntimeLeads(cfg, h, wk, o);
    } else if InServicePart(wk.pc) {
      ServicePartLeads(cfg, wk, o);
    } else {
      DispatchLeads(cfg, wk);
      if wk.pc.Refetch? && o.version < |h| {
        DispatchLeads(cfg, wk.(inst := Load(h, o.version)));
      }
    }
  }

  // ---- one step ----

  lemma {:induction false} DeletingStays(cfg: Config, h: seq<Revision>, i: nat, j: nat)
    requires HistoryOk(cfg, h) && i <= j < |h| && h[i].deleting
    ensures h[j].deleting
    decreases j
  {
    if i < j {
      DeletingStays(cfg, h, i, j - 1);
      assert FinalizersFollow(h[j - 1], h[j]);
    }
  }

  /** What a worker must hold after a step for the pushes to stay in line. */
  ghost predicate InLine(cfg: Config, w: World, wk: Worker)
    requires w.history != []
  {
    && PushLeads(wk.pc)
    && (!Current(w).deleting ==>
          if wk.pc.Push? then AboutToTell(cfg, w, wk) else w.pushed == LastOf(Current(w).status.conditions))
  }

  lemma {:induction false} PushPark(cfg: Config, w: World, wk: Worker)
    requires w.history != [] && w.workers.Keys <= {0} && InLine(cfg, w, wk)
    ensures PushedOk(cfg, Park(w, 0, wk))
  {
  }

  lemma {:induction false} PushedInLine(cfg: Config, w: World, wk: Worker, o: Outcome)
    requires WorkerOk(cfg, w.history, wk) && PushedOk(cfg, w) && 0 in w.workers && wk == w.workers[0]
    requires wk.pc.Push? && !o.fails
    ensures InLine(cfg, w.(pushed := Pushes(w, wk, o)), Resume(cfg, w.history, wk, o))
  {
    assert Needs(cfg, wk.pc, wk.inst.status) && Needs(cfg, wk.pc.next, wk.inst.status);
    assert Resume(cfg, w.history, wk, o) == wk.(pc := wk.pc.next);
  }

  lemma {:induction false} StopsWhenDeleting(cfg: Config, h: seq<Revision>, wk: Worker)
    requires HistoryOk(cfg, h) && WorkerOk(cfg, h, wk) && wk.pc.PushStopped?
    ensures h[|h| - 1].deleting
  {
    DeletingStays(cfg, h, wk.inst.version, |h| - 1);
  }

  lemma {:induction false} ReadInLine(cfg: Config, w: World, wk: Worker, o: Outcome)
    requires WorldOk(cfg, w) && PushedOk(cfg, w) && 0 in w.workers && wk == w.workers[0]
    requires !Writes(wk.pc) && !wk.pc.Push?
    ensures InLine(cfg, w.(pushed := Pushes(w, wk, o)), Resume(cfg, w.history, wk, o))
  {
    ResumeLeads(cfg, w.history, wk, o);
    if wk.pc.PushStopped? {
      StopsWhenDeleting(cfg, w.history, wk);
    }
  }

  lemma {:induction false} PushReadStep(cfg: Config, w: World, wk: Worker, o: Outcome)
    requires w.history != [] && w.workers.Keys <= {0}
    requires InLine(cfg, w.(pushed := Pushes(w, wk, o)), Resume(cfg, w.history, wk, o))
    ensures PushedOk(cfg, StepRead(cfg, w, 0, wk, o))
  {
    var w1 := Called(w, wk, o);
    PushPark(cfg, w1, Resume(cfg, w.history, wk, o));
  }

  /** Only the writes of status decisions change the condition list. */
  lemma {:induction false} OtherWritesKeepConditions(cfg: Config, h: seq<Revision>, wk: Worker)
    requires WorkerOk(cfg, h, wk) && wk.inst.version == |h| - 1 && Writes(wk.pc) && !wk.pc.Write?
    ensures NewRevision(h[|h| - 1], wk).status.conditions == h[|h| - 1].status.conditions
  {
  }

  /** After a stored status the worker is about to push exactly that. */
  lemma {:induction false} StatusInLine(cfg: Config, w: World, wk: Worker)
    requires w.history != [] && wk.pc.Write? && wk.pc.onOk.Push?
    ensures var w1 := Stored(w, NewRevision(Current(w), wk));
            InLine(cfg, w1, Wrote(cfg, wk.(inst := Load(w1.history, |w.history|))))
  {
    var w1 := Stored(w, NewRevision(Current(w), wk));
    var again := wk.(inst := Load(w1.history, |w.history|));
    assert Current(w1) == NewRevision(Current(w), wk) && Wrote(cfg, again) == again.(pc := wk.pc.onOk);
  }

  lemma {:induction false} OtherInLine(cfg: Config, w: World, wk: Worker)
    requires PushedOk(cfg, w) && !Pushing(w) && Writes(wk.pc) && !wk.pc.Write?
    requires WorkerOk(cfg, w.history, wk) && wk.inst.version == |w.history| - 1
    ensures var w1 := Stored(w, NewRevision(Current(w), wk));
            InLine(cfg, w1, Wrote(cfg, wk.(inst := Load(w1.history, |w.history|))))
  {
    var w1 := Stored(w, NewRevision(Current(w), wk));
    var again := wk.(inst := Load(w1.history, |w.history|));
    OtherWritesKeepConditions(cfg, w.history, wk);
    assert Current(w1).status.conditions == Current(w).status.conditions;
    if wk.pc.PutFinalizers? {
      assert Wrote(cfg, again) == again.(pc := wk.pc.next) && Plain(wk.pc.next);
    } else {
      DispatchLeads(cfg, again);
    }
  }

  lemma {:induction false} PushWriteStep(cfg: Config, w: World, wk: Worker, o: Outcome)
    requires WorldOk(cfg, w) && PushedOk(cfg, w) && 0 in w.workers && wk == w.workers[0] && Writes(wk.pc)
    requires wk.pc.Write? && wk.pc.onFail.Push? ==> Accepted(w, wk, o) || TellsStored(w, wk)
    ensures PushedOk(cfg, StepWrite(cfg, w, 0, wk, o))
  {
    assert WorkerOk(cfg, w.history, wk);
    if Accepted(w, wk, o) {
      var w1 := Stored(w, NewRevision(Current(w), wk));
      if wk.pc.Write? {
        StatusInLine(cfg, w, wk);
      } else {
        OtherInLine(cfg, w, wk);
      }
      PushPark(cfg, w1, Wrote(cfg, wk.(inst := Load(w1.history, |w.history|))));
    } else {
      PushPark(cfg, w, wk.(pc := AfterFailedWrite(wk.pc)));
    }
  }

  lemma {:induction false} PushDeleteStep(cfg: Config, w: World, wk: Worker, o: Outcome)
    requires PushedOk(cfg, w) && 0 in w.workers && wk == w.workers[0] && wk.pc.Delete? && wk.pc.next == END
    ensures PushedOk(cfg, StepDelete(w, 0, wk, o))
  {
    var w1 := Issued(w, wk);
    PushPark(cfg, if o.fails || w.gone then w1 else Remove(w1), wk.(pc := END));
  }

  lemma {:induction false} PushAct(cfg: Config, w: World, wk: Worker, o: Outcome)
    requires WorldOk(cfg, w) && PushedOk(cfg, w) && 0 in w.workers && wk == w.workers[0]
    requires wk.pc.Push? ==> !o.fails
    requires wk.pc.Write? && wk.pc.onFail.Push? ==> Accepted(w, wk, o) || TellsStored(w, wk)
    ensures PushedOk(cfg, Step(cfg, w, 0, o))
  {
    assert WorkerOk(cfg, w.history, wk);
    if Writes(wk.pc) {
      PushWriteStep(cfg, w, wk, o);
    } else if wk.pc.Delete? {
      PushDeleteStep(cfg, w, wk, o);
    } else {
      if wk.pc.Push? {
        PushedInLine(cfg, w, wk, o);
      } else {
        ReadInLine(cfg, w, wk, o);
      }
      PushReadStep(cfg, w, wk, o);
    }
  }

  lemma {:induction false} PushBegin(cfg: Config, w: World, version: nat, clock: Clock)
    requires PushedOk(cfg, w) && 0 !in w.workers && version < |w.history|
    ensures PushedOk(cfg, Park(w, 0, Start(cfg, Load(w.history, version), clock)))
  {
    DispatchLeads(cfg, Worker(END, Load(w.history, version), false));
    PushPark(cfg, w, Start(cfg, Load(w.history, version), clock));
  }

  lemma {:induction false} PushStep(cfg: Config, w: World, e: Event)
    requires WorldOk(cfg, w) && PushedOk(cfg, w) && DeliveredEvent(cfg, w, e)
    ensures PushedOk(cfg, Next(cfg, w, e))
  {
    if e.Begin? && 0 !in w.workers && e.version < |w.history| {
      PushBegin(cfg, w, e.version, e.clock);
    } else if e.Act? && 0 in w.workers {
      PushAct(cfg, w, w.workers[0], e.outcome);
    } else if e.Lose? && 0 in w.workers {
      PushLost(cfg, w, w.workers[0]);
    }
  }

  /** A lost answer to anything but a status decision's write leaves the list as it was told. */
  lemma {:induction false} PushLost(cfg: Config, w: World, wk: Worker)
    requires WorldOk(cfg, w) && PushedOk(cfg, w) && 0 in w.workers && wk == w.workers[0] && !wk.pc.Write?
    ensures PushedOk(cfg, Lost(w, 0, wk))
  {
    assert WorkerOk(cfg, w.history, wk);
    if Writes(wk.pc) && Acceptable(w, wk) {
      var r := NewRevision(Current(w), wk);
      OtherWritesKeepConditions(cfg, w.history, wk);
      assert Current(Stored(w, r)) == r;
      PushPark(cfg, Stored(w, r), wk.(pc := END));
    } else if wk.pc.Delete? {
      PushPark(cfg, Remove(Issued(w, wk)), wk.(pc := END));
    }
  }

  // ---- whole runs ----

  lemma {:induction false} DeliveredRunOk(cfg: Config, worlds: seq<World>, events: seq<Event>, i: nat)
    requires DeliveredRun(cfg, worlds, events) && i <= |events|
    ensures var w := worlds[i]; WorldOk(cfg, w) && PushedOk(cfg, w) && (Clustered(cfg.kind) ==> SoloOk(w))
  {
    if i == 0 {
      var finalizers: set<Finalizer> :| worlds[0] == Initial(finalizers);
      InitialOk(cfg, finalizers);
    } else {
      DeliveredRunOk(cfg, worlds, events, i - 1);
      var before, e := worlds[i - 1], events[i - 1];
      PushStep(cfg, before, e);
      if Clustered(cfg.kind) {
        SoloNext(cfg, before, e);
      }
      NextOk(cfg, before, e);
    }
  }

  /** A world some run without crashes and lost pushes goes through. */
  ghost predicate DeliveredReachable(cfg: Config, w: World) {
    exists worlds: seq<World>, events: seq<Event> :: DeliveredRun(cfg, worlds, events) && w in worlds
  }

  /**
   Outside deletion, whenever no push is under way, the last condition pushed is the last condition stored; and
   a push under way is about to restore that. Nothing was pushed exactly when nothing is stored.
   */
  lemma {:induction false} LastPushIsLastStored(cfg: Config, w: World)
    requires DeliveredReachable(cfg, w)
    ensures w.history != []
    ensures !Current(w).deleting ==>
              if Pushing(w) then AboutToTell(cfg, w, w.workers[0])
              else w.pushed == LastOf(Current(w).status.conditions)
  {
    var worlds: seq<World>, events: seq<Event> :| DeliveredRun(cfg, worlds, events) && w in worlds;
    var i :| 0 <= i < |worlds| && worlds[i] == w;
    DeliveredRunOk(cfg, worlds, events, i);
  }

  // ---- Jobs push Starting even when storing it was refused ----

  /** A refused write that still pushes leaves the control plane in step exactly when it tells what is stored. */
  lemma {:induction false} RefusedWriteIsPushed(cfg: Config, w: World, refused: Outcome, delivered: Outcome)
    requires w.history != [] && 0 in w.workers && !delivered.fails
    requires var wk := w.workers[0];
             && wk.pc.Write? && wk.pc.onFail == Push(END) && wk.inst.status.conditions != []
             && !Accepted(w, wk, refused)
    ensures var w' := Next(cfg, Next(cfg, w, Act(0, refused)), Act(0, delivered));
            && w'.history == w.history && w'.pushed == LastOf(w.workers[0].inst.status.conditions)
            && (w'.pushed == LastOf(Current(w').status.conditions) <==> TellsStored(w, w.workers[0]))
  {
    var w1 := Next(cfg, w, Act(0, refused));
    assert w1.history == w.history && 0 in w1.workers && w1.workers[0] == w.workers[0].(pc := Push(END));
  }

  /** The last condition after logging Starting: the old tail if it says so already, else a new one. */
  lemma {:induction false} StartingTail(own: seq<Condition>, clock: Clock)
    ensures var l := Logged(own, StartingEntry(), clock);
            && l != []
            && if Repeats(own, StartingEntry()) then l == own
               else LastOf(l).value.kind == Starting && LastOf(l).value.updated == clock.update
  {
  }

  lemma {:induction false} CreatedIsRecorded(cfg: Config, w: World, wk: Worker, created: Outcome)
    requires cfg.kind == JobKind && w.history != [] && 0 in w.workers && wk == w.workers[0]
    requires wk.pc.CreateChild? && !created.fails
    ensures var w1 := Next(cfg, w, Act(0, created));
            && w1.history == w.history && w1.gone == w.gone
            && 0 in w1.workers && w1.workers[0] == ChildCreated(cfg, wk, created)
  {
  }

  /**
   A Job whose child was created and whose Starting was then not stored, because the call failed or the pass was
   stale, pushes it all the same. The control plane agrees with what is stored exactly when the worker's list
   ended in that Starting already and the stored list ends in the same condition.
   */
  lemma {:induction false} JobPushesUnstoredStarting(
      cfg: Config, w: World, created: Outcome, refused: Outcome, delivered: Outcome)
    requires cfg.kind == JobKind && w.history != [] && 0 in w.workers && w.workers[0].pc.CreateChild?
    requires !created.fails && !delivered.fails
    requires refused.fails || w.gone || w.workers[0].inst.version != |w.history| - 1
    requires var tail := LastOf(Current(w).status.conditions); tail.Some? ==> tail.value.updated < created.clock.update
    ensures var w' := Next(cfg, Next(cfg, Next(cfg, w, Act(0, created)), Act(0, refused)), Act(0, delivered));
            var own, stored := w.workers[0].inst.status.conditions, Current(w).status.conditions;
            && w'.history == w.history
            && (w'.pushed == LastOf(stored) <==> Repeats(own, StartingEntry()) && LastOf(own) == LastOf(stored))
  {
    var wk := w.workers[0];
    CreatedIsRecorded(cfg, w, wk, created);
    StartingTail(wk.inst.status.conditions, created.clock);
    RefusedWriteIsPushed(cfg, Next(cfg, w, Act(0, created)), refused, delivered);
  }
}
