/** How a deleting operation gets rid of its finalizers, and what TTL handling does to a stopped one. */
module ProtocolDeletion {
  import opened Prelude
  import opened Conditions
  import opened ConditionHistory
  import opened Timing
  import opened Protocol
  import opened ProtocolSafety
  import opened ProtocolRuns

  // ---- a successful pass ----

  /** Every call succeeds and every read shows the latest revision. */
  ghost predicate Smooth(cfg: Config, w: World, outcomes: seq<Outcome>)
    requires w.history != []
    decreases |outcomes|
  {
    outcomes != [] ==>
      && !outcomes[0].fails && outcomes[0].version == |w.history| - 1
      && Smooth(cfg, Next(cfg, w, Act(0, outcomes[0])), outcomes[1..])
  }

  function Acts(cfg: Config, w: World, outcomes: seq<Outcome>): (w': World)
    requires w.history != []
    ensures w.history <= w'.history
    decreases |outcomes|
  {
    if outcomes == [] then w else Acts(cfg, Next(cfg, w, Act(0, outcomes[0])), outcomes[1..])
  }

  function Began(cfg: Config, w: World, clock: Clock): (w': World)
    requires w.history != []
    ensures w.history <= w'.history
  {
    Next(cfg, w, Begin(0, |w.history| - 1, clock))
  }

  /** Which finalizers one successful pass over a deleting operation leaves. */
  function Reduced(finalizers: set<Finalizer>): set<Finalizer> {
    if LogsFinalizer in finalizers then finalizers - {LogsFinalizer} else finalizers - {StatusFinalizer}
  }

  /** How many calls a pass over a deleting operation has left. */
  function CallsLeft(w: World): nat { if 0 in w.workers then CallsFrom(w.workers[0].pc) else 0 }

  function CallsFrom(pc: Pc): nat {
    match pc
    case WriteStart => 5
    case Refetch(_) => 4
    case PushStopped => 3
    case Collect => 2
    case Idle(_) => 0
    case _ => 1
  }

  /** The worker's copy is the latest revision. */
  ghost predicate AtLatest(w: World, i: Instance)
    requires w.history != []
  {
    i == Load(w.history, |w.history| - 1)
  }

  /** The stages of a pass over an operation that was deleting with these finalizers when the pass began. */
  ghost predicate Stages(cfg: Config, w: World, wk: Worker, first: set<Finalizer>)
    requires w.history != []
  {
    var pc, i := wk.pc, wk.inst;
    && Current(w).finalizers == first
    && match pc
       case WriteStart => i.status.start.Some? && AtLatest(w, i.(status := Current(w).status))
       case Refetch(stage) => stage == StartSet && Current(w).status.start.Some?
       case PushStopped => AtLatest(w, i)
       case Collect => AtLatest(w, i) && LogsFinalizer in first
       case PutFinalizers(next) =>
         next == END && AtLatest(w, i.(finalizers := first)) && i.finalizers == Reduced(first) && i.finalizers != first
       case _ => false
  }

  /** What holds throughout: the finalizers are untouched until the pass ends, and reduced when it has. */
  ghost predicate Winding(cfg: Config, w: World, first: set<Finalizer>, gone: bool) {
    && w.history != [] && Current(w).deleting && w.workers.Keys <= {0}
    && (Current(w).finalizers != {} ==> !w.gone)
    && (gone ==> w.gone)
    && if 0 in w.workers then Stages(cfg, w, w.workers[0], first)
       else Current(w).finalizers == Reduced(first) && (Reduced(first) == {} && first != {} ==> w.gone)
  }

  /** A pass that goes on from here stays within its stages. */
  ghost predicate Winds(cfg: Config, w: World, wk: Worker, first: set<Finalizer>)
    requires w.history != []
  {
    if wk.pc.Idle? then !wk.pc.panicked && Reduced(first) == first else Stages(cfg, w, wk, first) && !wk.pc.WriteStart?
  }

  lemma {:induction false} FinalizeWinds(cfg: Config, w: World, wk: Worker)
    requires w.history != [] && Current(w).deleting && AtLatest(w, wk.inst)
    ensures var f := Finalize(wk);
            Winds(cfg, w, f, Current(w).finalizers) && !f.pc.PushStopped? && !f.pc.Refetch?
  {
  }

  lemma {:induction false} DispatchWinds(cfg: Config, w: World, wk: Worker)
    requires w.history != [] && Current(w).deleting && AtLatest(w, wk.inst)
    ensures Winds(cfg, w, Dispatch(cfg, wk), Current(w).finalizers) && !Dispatch(cfg, wk).pc.Refetch?
  {
    FinalizeWinds(cfg, w, wk);
  }

  lemma {:induction false} ParkWinds(cfg: Config, w: World, wk: Worker, first: set<Finalizer>, gone: bool)
    requires w.history != [] && Current(w).deleting && w.workers.Keys <= {0}
    requires Current(w).finalizers == first && (first != {} ==> !w.gone) && (gone ==> w.gone)
    requires Winds(cfg, w, wk, first)
    ensures Winding(cfg, Park(w, 0, wk), first, gone) && CallsLeft(Park(w, 0, wk)) == CallsFrom(wk.pc)
  {
  }

  /** A call that stores nothing keeps the pass within its stages if the worker's next call does. */
  lemma {:induction false} WindsRead(cfg: Config, w: World, wk: Worker, o: Outcome, first: set<Finalizer>, gone: bool)
    requires Winding(cfg, w, first, gone) && 0 in w.workers && wk == w.workers[0]
    requires Winds(cfg, w, Resume(cfg, w.history, wk, o), first)
    requires CallsFrom(Resume(cfg, w.history, wk, o).pc) < CallsFrom(wk.pc)
    ensures var w' := StepRead(cfg, w, 0, wk, o); Winding(cfg, w', first, gone) && CallsLeft(w') < CallsLeft(w)
  {
    ParkWinds(cfg, Called(w, wk, o), Resume(cfg, w.history, wk, o), first, gone);
  }

  lemma {:induction false} WindsPushStopped(cfg: Config, w: World, wk: Worker, o: Outcome, first: set<Finalizer>)
    requires w.history != [] && Current(w).deleting && Stages(cfg, w, wk, first) && wk.pc.PushStopped?
    ensures var next := Resume(cfg, w.history, wk, o); Winds(cfg, w, next, first) && CallsFrom(next.pc) < 3
  {
    FinalizeWinds(cfg, w, wk);
    assert Resume(cfg, w.history, wk, o) == Finalize(wk);
  }

  lemma {:induction false} WindsCollect(cfg: Config, w: World, wk: Worker, o: Outcome, first: set<Finalizer>)
    requires w.history != [] && Current(w).deleting && Stages(cfg, w, wk, first) && wk.pc.Collect? && !o.fails
    ensures var next := Resume(cfg, w.history, wk, o); Winds(cfg, w, next, first) && CallsFrom(next.pc) < 2
  {
    assert Resume(cfg, w.history, wk, o).pc == PutFinalizers(END);
  }

  lemma {:induction false} WindsRefetch(cfg: Config, w: World, wk: Worker, o: Outcome, first: set<Finalizer>)
    requires w.history != [] && Current(w).deleting && Stages(cfg, w, wk, first) && wk.pc.Refetch?
    requires !o.fails && o.version == |w.history| - 1
    ensures var next := Resume(cfg, w.history, wk, o); Winds(cfg, w, next, first) && CallsFrom(next.pc) < 4
  {
    var again := wk.(inst := Load(w.history, o.version));
    DispatchWinds(cfg, w, again);
    assert Resume(cfg, w.history, wk, o) == Dispatch(cfg, again);
  }

  lemma {:induction false} WindsStart(cfg: Config, w: World, o: Outcome, first: set<Finalizer>, gone: bool)
    requires Winding(cfg, w, first, gone) && 0 in w.workers && w.workers[0].pc.WriteStart? && !o.fails
    ensures var w' := StepWrite(cfg, w, 0, w.workers[0], o);
            Winding(cfg, w', first, gone) && CallsLeft(w') < CallsLeft(w)
  {
    var wk := w.workers[0];
    if Accepted(w, wk, o) {
      var w1 := Stored(w, NewRevision(Current(w), wk));
      var again := wk.(inst := Load(w1.history, |w.history|));
      assert Current(w1) == NewRevision(Current(w), wk);
      DispatchWinds(cfg, w1, again);
      ParkWinds(cfg, w1, Wrote(cfg, again), first, gone);
    }
  }

  lemma {:induction false} WindsFinalizers(cfg: Config, w: World, o: Outcome, first: set<Finalizer>, gone: bool)
    requires Winding(cfg, w, first, gone) && 0 in w.workers && w.workers[0].pc.PutFinalizers? && !o.fails
    ensures var w' := StepWrite(cfg, w, 0, w.workers[0], o);
            Winding(cfg, w', first, gone) && CallsLeft(w') < CallsLeft(w)
  {
    var wk := w.workers[0];
    assert Accepted(w, wk, o);
    var w1 := Stored(w, NewRevision(Current(w), wk));
    assert Current(w1) == NewRevision(Current(w), wk);
    assert Wrote(cfg, wk.(inst := Load(w1.history, |w.history|))).pc == END;
  }

  lemma {:induction false} WindsAct(cfg: Config, w: World, o: Outcome, first: set<Finalizer>, gone: bool)
    requires Winding(cfg, w, first, gone) && !o.fails && o.version == |w.history| - 1
    ensures var w' := Next(cfg, w, Act(0, o));
            Winding(cfg, w', first, gone) && (CallsLeft(w) == 0 || CallsLeft(w') < CallsLeft(w))
  {
    if 0 in w.workers {
      var pc := w.workers[0].pc;
      if pc.WriteStart? {
        WindsStart(cfg, w, o, first, gone);
      } else if pc.PutFinalizers? {
        WindsFinalizers(cfg, w, o, first, gone);
      } else {
        var wk := w.workers[0];
        if pc.Refetch? {
          WindsRefetch(cfg, w, wk, o, first);
        } else if pc.Collect? {
          WindsCollect(cfg, w, wk, o, first);
        } else {
          WindsPushStopped(cfg, w, wk, o, first);
        }
        WindsRead(cfg, w, wk, o, first, gone);
      }
    }
  }

  lemma {:induction false} WindsOn(cfg: Config, w: World, outcomes: seq<Outcome>, first: set<Finalizer>, gone: bool)
    requires Winding(cfg, w, first, gone) && Smooth(cfg, w, outcomes)
    ensures Winding(cfg, Acts(cfg, w, outcomes), first, gone)
    ensures CallsLeft(w) <= |outcomes| ==> Acts(cfg, w, outcomes).workers == map[]
    decreases |outcomes|
  {
    if outcomes == [] {
      assert 0 !in w.workers ==> w.workers == map[];
    } else {
      WindsAct(cfg, w, outcomes[0], first, gone);
      WindsOn(cfg, Next(cfg, w, Act(0, outcomes[0])), outcomes[1..], first, gone);
    }
  }

  /** A deleting operation between passes; it is gone only if no finalizer holds it. */
  ghost predicate Deleting(w: World) {
    w.history != [] && Current(w).deleting && w.workers == map[] && (Current(w).finalizers != {} ==> !w.gone)
  }

  lemma {:induction false} BeganWinds(cfg: Config, w: World, clock: Clock)
    requires Deleting(w)
    ensures Winding(cfg, Began(cfg, w, clock), Current(w).finalizers, w.gone) && CallsLeft(Began(cfg, w, clock)) <= 5
  {
    var wk := Worker(END, Load(w.history, |w.history| - 1), false);
    if Current(w).status.start.Some? {
      DispatchWinds(cfg, w, wk);
      ParkWinds(cfg, w, Dispatch(cfg, wk), Current(w).finalizers, w.gone);
      assert Start(cfg, wk.inst, clock) == Dispatch(cfg, wk);
    } else {
      StartWinds(cfg, w, clock);
    }
  }

  lemma {:induction false} StartWinds(cfg: Config, w: World, clock: Clock)
    requires Deleting(w) && Current(w).status.start.None?
    ensures var start := Start(cfg, Load(w.history, |w.history| - 1), clock);
            start.pc.WriteStart? && Winding(cfg, Park(w, 0, start), Current(w).finalizers, w.gone)
  {
  }

  /** One successful pass ends within five calls and takes away the logs finalizer, or else the status finalizer. */
  lemma {:induction false} DeletingPass(cfg: Config, w: World, clock: Clock, outcomes: seq<Outcome>)
    requires Deleting(w) && Smooth(cfg, Began(cfg, w, clock), outcomes)
    ensures var w' := Acts(cfg, Began(cfg, w, clock), outcomes);
            && (|outcomes| >= 5 ==> w'.workers == map[])
            && (w'.workers == map[] ==> Deleting(w') && Current(w').finalizers == Reduced(Current(w).finalizers))
            && (w'.workers == map[] && Current(w').finalizers == {} && Current(w).finalizers != {} ==> w'.gone)
            && (w.gone ==> w'.gone)
  {
    BeganWinds(cfg, w, clock);
    WindsOn(cfg, Began(cfg, w, clock), outcomes, Current(w).finalizers, w.gone);
  }

  /**
   A deleting operation loses both finalizers, and nothing else, within two successful passes; if no one else
   holds it, it is then gone for good.
   */
  lemma {:induction false} TwoPassesFinalize(
      cfg: Config, w: World, clock1: Clock, first: seq<Outcome>, clock2: Clock, second: seq<Outcome>)
    requires Deleting(w) && Smooth(cfg, Began(cfg, w, clock1), first)
    requires var w1 := Acts(cfg, Began(cfg, w, clock1), first);
             w1.workers == map[] && Smooth(cfg, Began(cfg, w1, clock2), second)
    ensures var w2 := Acts(cfg, Began(cfg, Acts(cfg, Began(cfg, w, clock1), first), clock2), second);
            var kept := Current(w).finalizers - {LogsFinalizer, StatusFinalizer};
            w2.workers == map[] ==>
              Current(w2).finalizers == kept && (kept == {} && Current(w).finalizers != {} ==> w2.gone)
  {
    DeletingPass(cfg, w, clock1, first);
    DeletingPass(cfg, Acts(cfg, Began(cfg, w, clock1), first), clock2, second);
  }

  // ---- TTL handling of a stopped operation ----

  /** In every run, TTL handling reads a missing completion time exactly for a stopped Service or cluster with a TTL. */
  lemma {:induction false} TtlMissesExactlyStopped(cfg: Config, w: World, id: nat, o: Outcome)
    requires Reachable(cfg, w) && id in w.workers && w.workers[id].pc.Ttl?
    ensures var wk := w.workers[id];
            TtlChecked(cfg, wk, o).pc == Idle(true) <==>
              cfg.ttl.Some? && !Marking(cfg.kind) && Has(wk.inst.status.conditions, Stopped)
  {
    ReachableOk(cfg, w);
    TtlMissesStopped(cfg, w.history, w.workers[id], o);
  }

  lemma {:induction false} TtlMissesStopped(cfg: Config, h: seq<Revision>, wk: Worker, o: Outcome)
    requires HistoryOk(cfg, h) && WorkerOk(cfg, h, wk) && wk.pc.Ttl?
    ensures TtlChecked(cfg, wk, o).pc == Idle(true) <==>
              cfg.ttl.Some? && !Marking(cfg.kind) && Has(wk.inst.status.conditions, Stopped)
  {
    var s := wk.inst.status;
    assert Good(cfg, s);
    TtlNeedsCompletion(cfg.ttl, s.completion, o.clock.before);
    assert s.completion.None? <==> !Marking(cfg.kind) && Has(s.conditions, Stopped);
  }

  /** A stored operation that has started and that no one is deleting. */
  ghost predicate Live(w: World) {
    w.history != [] && !w.gone && !Current(w).deleting && Current(w).status.start.Some?
  }

  function Latest(w: World): Instance
    requires w.history != []
  {
    Load(w.history, |w.history| - 1)
  }

  // ---- a pass over a done operation without completion time ----

  /** The pass is at most this many calls away from reading the completion time, which is missing. */
  ghost predicate HeadsForTtl(w: World, calls: nat) {
    w.panicked ||
    (&& Live(w) && w.workers.Keys == {0} && Current(w).status.completion.None?
     && var wk := w.workers[0];
        match wk.pc
        case Ttl => calls >= 1 && wk.inst == Latest(w)
        case PutFinalizers(next) =>
          calls >= 2 && next == Ttl && wk.inst.(finalizers := Current(w).finalizers) == Latest(w)
        case Collect => calls >= 3 && wk.inst == Latest(w)
        case _ => false)
  }

  lemma {:induction false} HeadsOn(cfg: Config, w: World, o: Outcome, calls: nat)
    requires w.history != [] && HeadsForTtl(w, calls) && calls > 0 && !o.fails && cfg.ttl.Some?
    ensures HeadsForTtl(Next(cfg, w, Act(0, o)), calls - 1)
  {
    if w.panicked {
      PanicStays(cfg, w, o);
    } else {
      var wk := w.workers[0];
      match wk.pc
      case Ttl => TtlPanics(cfg, w, wk, o);
      case PutFinalizers(_) => FinalizersStored(cfg, w, wk, o);
      case Collect => LogsCollected(cfg, w, wk, o);
    }
  }

  lemma {:induction false} TtlPanics(cfg: Config, w: World, wk: Worker, o: Outcome)
    requires w.history != [] && 0 in w.workers && wk == w.workers[0] && wk.pc.Ttl?
    requires cfg.ttl.Some? && wk.inst.status.completion.None?
    ensures Next(cfg, w, Act(0, o)).panicked
  {
    TtlNeedsCompletion(cfg.ttl, wk.inst.status.completion, o.clock.before);
    assert Resume(cfg, w.history, wk, o) == wk.(pc := Idle(true));
  }

  lemma {:induction false} LogsCollected(cfg: Config, w: World, wk: Worker, o: Outcome)
    requires Live(w) && w.workers.Keys == {0} && wk == w.workers[0] && wk.pc.Collect? && wk.inst == Latest(w)
    requires !o.fails
    ensures var w' := Next(cfg, w, Act(0, o));
            && w'.history == w.history && w'.gone == w.gone && w'.workers.Keys == {0}
            && w'.workers[0].pc == PutFinalizers(Ttl)
            && w'.workers[0].inst.(finalizers := Current(w).finalizers) == Latest(w)
  {
    var i := wk.inst.(finalizers := wk.inst.finalizers - {LogsFinalizer});
    assert Resume(cfg, w.history, wk, o) == wk.(pc := PutFinalizers(Ttl), collected := true, inst := i);
  }

  lemma {:induction false} PanicStays(cfg: Config, w: World, o: Outcome)
    requires w.history != [] && w.panicked
    ensures Next(cfg, w, Act(0, o)).panicked
  {
  }

  lemma {:induction false} FinalizersStored(cfg: Config, w: World, wk: Worker, o: Outcome)
    requires Live(w) && w.workers.Keys == {0} && wk == w.workers[0] && wk.pc.PutFinalizers? && wk.pc.next.Ttl?
    requires wk.inst.(finalizers := Current(w).finalizers) == Latest(w) && !o.fails
    ensures var w' := Next(cfg, w, Act(0, o));
            && w'.workers.Keys == {0} && w'.workers[0].pc.Ttl? && Live(w') && w'.workers[0].inst == Latest(w')
            && Current(w').status == Current(w).status
  {
    assert Accepted(w, wk, o);
    var w1 := Stored(w, NewRevision(Current(w), wk));
    assert Current(w1) == NewRevision(Current(w), wk);
    assert Wrote(cfg, wk.(inst := Load(w1.history, |w.history|))).pc == Ttl;
  }

  lemma {:induction false} HeadsToPanic(cfg: Config, w: World, outcomes: seq<Outcome>, calls: nat)
    requires w.history != [] && HeadsForTtl(w, calls) && calls <= |outcomes| && cfg.ttl.Some?
    requires forall o :: o in outcomes ==> !o.fails
    ensures Acts(cfg, w, outcomes).panicked
    decreases |outcomes|
  {
    if outcomes != [] {
      var rest := outcomes[1..];
      assert forall o :: o in rest ==> o in outcomes;
      if calls > 0 {
        HeadsOn(cfg, w, outcomes[0], calls);
        HeadsToPanic(cfg, Next(cfg, w, Act(0, outcomes[0])), rest, calls - 1);
      } else {
        PanicStays(cfg, w, outcomes[0]);
        HeadsToPanic(cfg, Next(cfg, w, Act(0, outcomes[0])), rest, 0);
      }
    }
  }

  lemma {:induction false} DoneHeadsForTtl(cfg: Config, w: World, clock: Clock)
    requires Live(w) && w.workers == map[] && Done(Current(w).status.conditions) && Current(w).status.completion.None?
    ensures HeadsForTtl(Began(cfg, w, clock), 3)
  {
    var wk := Worker(END, Latest(w), false);
    assert Start(cfg, Latest(w), clock) == Finalize(wk);
  }

  /** A successful pass over a done operation with a TTL and no completion time panics within three calls. */
  lemma {:induction false} StoppedTtlPanics(cfg: Config, w: World, clock: Clock, outcomes: seq<Outcome>)
    requires Live(w) && w.workers == map[] && cfg.ttl.Some?
    requires Done(Current(w).status.conditions) && Current(w).status.completion.None?
    requires |outcomes| >= 3 && forall o :: o in outcomes ==> !o.fails
    ensures Acts(cfg, Began(cfg, w, clock), outcomes).panicked
  {
    var w1 := Began(cfg, w, clock);
    assert HeadsForTtl(w1, 3) by {
      DoneHeadsForTtl(cfg, w, clock);
    }
    HeadsToPanic(cfg, w1, outcomes, 3);
  }

  // ---- how an operation comes to be stopped without completion time ----

  /** The worker holds the latest revision and is the only one. */
  ghost predicate AtWork(w: World, wk: Worker) {
    Live(w) && w.workers == map[0 := wk] && wk.inst == Latest(w)
  }

  /** Nothing under way; the status is the given one, and nothing else about the operation changed. */
  ghost predicate Rests(w: World, w': World, s: Status)
    requires w.history != []
  {
    w'.history == w.history + [Current(w).(status := s, cause := StatusWrite)] && !w'.gone && w'.workers == map[]
  }

  function With(w: World, wk: Worker): World { w.(workers := map[0 := wk]) }

  lemma {:induction false} WriteStored(cfg: Config, w: World, wk: Worker, o: Outcome)
    requires w.history != [] && !w.gone && !Current(w).deleting && !o.fails
    requires wk.pc.Write? && wk.pc.onOk.Push? && wk.inst.version == |w.history| - 1
    ensures var w1 := Stored(w, NewRevision(Current(w), wk));
            Next(cfg, With(w, wk), Act(0, o)) == With(w1, wk.(pc := wk.pc.onOk, inst := Load(w1.history, |w.history|)))
  {
    var w0, w1 := With(w, wk), Stored(w, NewRevision(Current(w), wk));
    var again := wk.(inst := Load(w1.history, |w.history|));
    assert Accepted(w0, wk, o) && Current(w0) == Current(w);
    assert Wrote(cfg, again) == again.(pc := wk.pc.onOk);
    assert Next(cfg, w0, Act(0, o)) == StepWrite(cfg, w0, 0, wk, o);
  }

  lemma {:induction false} PushSent(cfg: Config, w: World, wk: Worker, o: Outcome)
    requires w.history != [] && wk.pc.Push? && !wk.pc.next.Idle? && wk.inst.status.conditions != []
    ensures Next(cfg, With(w, wk), Act(0, o)) == With(w.(pushed := Pushes(w, wk, o)), wk.(pc := wk.pc.next))
  {
  }

  /** A call that stores, pushes and creates nothing takes the worker to its next call. */
  lemma {:induction false} ReadTaken(cfg: Config, w: World, wk: Worker, o: Outcome, next: Worker)
    requires w.history != [] && !Writes(wk.pc) && !wk.pc.Delete? && !wk.pc.Push? && !wk.pc.PushStopped?
    requires !wk.pc.CreateChild? && !wk.pc.CreateBase?
    requires next == Resume(cfg, w.history, wk, o) && !next.pc.Idle?
    ensures Next(cfg, With(w, wk), Act(0, o)) == With(w, next)
  {
  }

  /** The stop is stored and pushed; the worker is then at its next call. */
  lemma {:induction false} StopStored(cfg: Config, w: World, wk: Worker, next: Pc, o1: Outcome, o2: Outcome)
    requires Live(w) && wk.pc == Write(Push(next), END) && !next.Idle? && wk.inst.version == |w.history| - 1
    requires wk.inst.status.conditions != [] && !o1.fails
    ensures var w' := Next(cfg, Next(cfg, With(w, wk), Act(0, o1)), Act(0, o2));
            && w'.history == w.history + [Current(w).(status := wk.inst.status, cause := StatusWrite)] && !w'.gone
            && w' == With(w', wk.(pc := next, inst := Latest(w')))
  {
    var w1 := Stored(w, NewRevision(Current(w), wk));
    var again := wk.(pc := Push(next), inst := Load(w1.history, |w.history|));
    WriteStored(cfg, w, wk, o1);
    PushSent(cfg, w1, again, o2);
  }

  lemma {:induction false} DeadlineSkipped(cfg: Config, w: World, wk: Worker, o: Outcome)
    requires w.history != [] && wk.pc.Deadline? && Done(wk.inst.status.conditions)
    ensures Next(cfg, With(w, wk), Act(0, o)) == w.(workers := map[])
  {
    assert Resume(cfg, w.history, wk, o) == wk.(pc := END);
    assert map[0 := wk] - {0} == map[];
  }

  lemma {:induction false} DeleteFailed(cfg: Config, w: World, wk: Worker, o: Outcome)
    requires w.history != [] && wk.pc.Delete? && o.fails
    ensures var w' := Next(cfg, With(w, wk), Act(0, o));
            w'.history == w.history && w'.gone == w.gone && w'.workers == map[]
  {
    assert map[0 := wk] - {0} == map[];
  }

  /** Recording a stop makes the status done and leaves the start and completion times alone. */
  lemma {:induction false} StopRecorded(s: Status, stop: Entry, clock: Clock)
    requires WellFormed(s.conditions) && stop.kind == Stopped
    ensures var t := Record(s, stop, clock, None);
            Done(t.conditions) && t.conditions != [] && t.start == s.start && t.completion == s.completion
  {
    DoneLogged(s.conditions, stop, clock);
    LoggedWellFormed(s.conditions, stop, clock);
  }

  lemma {:induction false} MissingChildRecords(cfg: Config, wk: Worker, stop: Entry, missing: Outcome)
    requires Clustered(cfg.kind) && wk.inst.status.conditions != [] && !Done(wk.inst.status.conditions)
    ensures MissingChild(cfg, wk, stop, missing) == Recording(wk, stop, missing.clock, None, Push(Deadline), END)
  {
  }

  lemma {:induction false} MissingIsRecorded(cfg: Config, w: World, wk: Worker, missing: Outcome)
    requires w.history != [] && wk.pc.GetChild? && Clustered(cfg.kind)
    requires wk.inst.status.conditions != [] && !Done(wk.inst.status.conditions) && !missing.fails && !missing.found
    ensures var stop := Recording(wk, MissingEntry(cfg.kind), missing.clock, None, Push(Deadline), END);
            Next(cfg, With(w, wk), Act(0, missing)) == With(w, stop)
  {
    MissingResumes(cfg, w.history, wk, missing);
    ReadTaken(cfg, w, wk, missing, Resume(cfg, w.history, wk, missing));
  }

  lemma {:induction false} MissingResumes(cfg: Config, h: seq<Revision>, wk: Worker, missing: Outcome)
    requires wk.pc.GetChild? && Clustered(cfg.kind)
    requires wk.inst.status.conditions != [] && !Done(wk.inst.status.conditions) && !missing.fails && !missing.found
    ensures Resume(cfg, h, wk, missing) ==
            Recording(wk, MissingEntry(cfg.kind), missing.clock, None, Push(Deadline), END)
  {
    MissingChildRecords(cfg, wk, MissingEntry(cfg.kind), missing);
  }

  /** Three more calls of the worker: two that store and push the stop, one that follows. */
  function AfterStop(cfg: Config, w: World, o1: Outcome, o2: Outcome, o3: Outcome): World
    requires w.history != []
  {
    Next(cfg, Next(cfg, Next(cfg, w, Act(0, o1)), Act(0, o2)), Act(0, o3))
  }

  /** The stop is on record, and nothing is under way. */
  ghost predicate RestsStopped(w: World, w': World, stop: Entry, clock: Clock)
    requires w.history != []
  {
    && Rests(w, w', Record(Current(w).status, stop, clock, None))
    && Live(w') && Done(Current(w').status.conditions)
    && Current(w').status.completion == Current(w).status.completion
  }

  /** Storing and pushing a recorded stop, and a last call that ends the pass without storing anything. */
  lemma {:induction false} StopRests(
      cfg: Config, w: World, wk: Worker, stop: Entry, clock: Clock, next: Pc, o1: Outcome, o2: Outcome, o3: Outcome)
    requires Live(w) && wk.inst == Latest(w) && stop.kind == Stopped && !o1.fails && !next.Idle?
    requires WellFormed(wk.inst.status.conditions)
    requires (next.Deadline?) || (next.Delete? && o3.fails)
    ensures var w1 := With(w, Recording(wk, stop, clock, None, Push(next), END));
            RestsStopped(w, AfterStop(cfg, w1, o1, o2, o3), stop, clock)
  {
    var recorded := Recording(wk, stop, clock, None, Push(next), END);
    StopRecorded(wk.inst.status, stop, clock);
    var w3 := Next(cfg, Next(cfg, With(w, recorded), Act(0, o1)), Act(0, o2));
    var again := recorded.(pc := next, inst := Latest(w3));
    assert w3.history == w.history + [Current(w).(status := recorded.inst.status, cause := StatusWrite)]
           && !w3.gone && w3 == With(w3, again) by {
      StopStored(cfg, w, recorded, next, o1, o2);
    }
    if next.Deadline? {
      DeadlineSkipped(cfg, w3, again, o3);
    } else {
      DeleteFailed(cfg, w3, again, o3);
    }
  }

  /** A pass over a cluster that finds its child gone stores a stop without a completion time. */
  lemma {:induction false} MissingClusterStops(
      cfg: Config, w: World, wk: Worker, missing: Outcome, o1: Outcome, o2: Outcome, o3: Outcome)
    requires AtWork(w, wk) && wk.pc.GetChild? && Clustered(cfg.kind) && WellFormed(wk.inst.status.conditions)
    requires wk.inst.status.conditions != [] && !Done(wk.inst.status.conditions)
    requires !missing.fails && !missing.found && !o1.fails
    ensures var w1 := Next(cfg, w, Act(0, missing));
            RestsStopped(w, AfterStop(cfg, w1, o1, o2, o3), MissingEntry(cfg.kind), missing.clock)
  {
    var stop := MissingEntry(cfg.kind);
    assert Next(cfg, w, Act(0, missing)) == With(w, Recording(wk, stop, missing.clock, None, Push(Deadline), END)) by {
      assert With(w, wk) == w;
      MissingIsRecorded(cfg, w, wk, missing);
    }
    MissingEntryKind(cfg.kind);
    StopRests(cfg, w, wk, stop, missing.clock, Deadline, o1, o2, o3);
  }

  /** So with a TTL the next successful pass panics. */
  lemma {:induction false} MissingClusterPanics(
      cfg: Config, w: World, wk: Worker, missing: Outcome, o1: Outcome, o2: Outcome, o3: Outcome, clock: Clock,
      outcomes: seq<Outcome>)
    requires Reachable(cfg, w) && AtWork(w, wk) && wk.pc.GetChild? && Clustered(cfg.kind) && cfg.ttl.Some?
    requires wk.inst.status.conditions != []
    requires !missing.fails && !missing.found && !o1.fails
    requires |outcomes| >= 3 && forall o :: o in outcomes ==> !o.fails
    ensures var w' := AfterStop(cfg, Next(cfg, w, Act(0, missing)), o1, o2, o3);
            w'.history != [] && Acts(cfg, Began(cfg, w', clock), outcomes).panicked
  {
    ReachableOk(cfg, w);
    NotDoneHasNoCompletion(cfg, w, wk);
    MissingClusterStops(cfg, w, wk, missing, o1, o2, o3);
    StoppedTtlPanics(cfg, AfterStop(cfg, Next(cfg, w, Act(0, missing)), o1, o2, o3), clock, outcomes);
  }

  lemma {:induction false} NotDoneHasNoCompletion(cfg: Config, w: World, wk: Worker)
    requires WorldOk(cfg, w) && AtWork(w, wk) && (wk.pc.GetChild? || !Done(wk.inst.status.conditions))
    ensures WellFormed(wk.inst.status.conditions) && !Done(wk.inst.status.conditions)
    ensures Current(w).status.completion.None?
  {
    assert 0 in w.workers && WorkerOk(cfg, w.history, w.workers[0]);
    assert Good(cfg, Current(w).status);
  }

  /** A Service or cluster past its deadline stores a stop without a completion time; its delete may then fail. */
  lemma {:induction false} DeadlineStopStored(
      cfg: Config, w: World, wk: Worker, check: Outcome, o1: Outcome, o2: Outcome, failed: Outcome)
    requires AtWork(w, wk) && wk.pc.Deadline?
    requires WellFormed(wk.inst.status.conditions) && !Done(wk.inst.status.conditions)
    requires DeadlineDecide(cfg.limits.deadline, wk.inst.status.start, false, check.clock.before).Expired?
    requires !o1.fails && failed.fails
    ensures RestsStopped(w, AfterStop(cfg, Next(cfg, w, Act(0, check)), o1, o2, failed), DeadlineEntry(), check.clock)
  {
    var after := Delete(END, Overdue);
    assert Next(cfg, w, Act(0, check)) ==
           With(w, Recording(wk, DeadlineEntry(), check.clock, None, Push(after), END)) by {
      assert With(w, wk) == w;
      DeadlineIsRecorded(cfg, w, wk, check);
    }
    StopRests(cfg, w, wk, DeadlineEntry(), check.clock, after, o1, o2, failed);
  }

  lemma {:induction false} DeadlineRecords(cfg: Config, wk: Worker, check: Outcome)
    requires !Done(wk.inst.status.conditions)
    requires DeadlineDecide(cfg.limits.deadline, wk.inst.status.start, false, check.clock.before).Expired?
    ensures DeadlineChecked(cfg, wk, check) ==
            Recording(wk, DeadlineEntry(), check.clock, None, Push(Delete(END, Overdue)), END)
  {
  }

  lemma {:induction false} DeadlineIsRecorded(cfg: Config, w: World, wk: Worker, check: Outcome)
    requires w.history != [] && wk.pc.Deadline? && !Done(wk.inst.status.conditions)
    requires DeadlineDecide(cfg.limits.deadline, wk.inst.status.start, false, check.clock.before).Expired?
    ensures Next(cfg, With(w, wk), Act(0, check)) ==
            With(w, Recording(wk, DeadlineEntry(), check.clock, None, Push(Delete(END, Overdue)), END))
  {
    DeadlineRecords(cfg, wk, check);
    assert Resume(cfg, w.history, wk, check) == DeadlineChecked(cfg, wk, check);
    ReadTaken(cfg, w, wk, check, DeadlineChecked(cfg, wk, check));
  }

  /** With a TTL, a Service or cluster whose delete after a deadline stop fails panics in the next successful pass. */
  lemma {:induction false} FailedDeadlineDeletePanics(
      cfg: Config, w: World, wk: Worker, check: Outcome, o1: Outcome, o2: Outcome, failed: Outcome, clock: Clock,
      outcomes: seq<Outcome>)
    requires Reachable(cfg, w) && AtWork(w, wk) && wk.pc.Deadline? && !Done(wk.inst.status.conditions) && cfg.ttl.Some?
    requires DeadlineDecide(cfg.limits.deadline, wk.inst.status.start, false, check.clock.before).Expired?
    requires !o1.fails && failed.fails
    requires |outcomes| >= 3 && forall o :: o in outcomes ==> !o.fails
    ensures var w' := AfterStop(cfg, Next(cfg, w, Act(0, check)), o1, o2, failed);
            w'.history != [] && Acts(cfg, Began(cfg, w', clock), outcomes).panicked
  {
    ReachableOk(cfg, w);
    NotDoneHasNoCompletion(cfg, w, wk);
    DeadlineStopStored(cfg, w, wk, check, o1, o2, failed);
    StoppedTtlPanics(cfg, AfterStop(cfg, Next(cfg, w, Act(0, check)), o1, o2, failed), clock, outcomes);
  }

  // ---- a delete that goes through keeps later passes away from the TTL ----

  /** Calls may fail, but every read shows the latest revision. */
  ghost predicate LatestReads(cfg: Config, w: World, outcomes: seq<Outcome>)
    requires w.history != []
    decreases |outcomes|
  {
    outcomes != [] ==>
      outcomes[0].version == |w.history| - 1 && LatestReads(cfg, Next(cfg, w, Act(0, outcomes[0])), outcomes[1..])
  }

  /** The stages of a pass that has seen the deletion mark. */
  ghost predicate Leaving(wk: Worker) {
    || (wk.pc.Refetch? && wk.pc.stage.StartSet?)
    || (wk.inst.deleting && (wk.pc.WriteStart? || wk.pc.PushStopped? || wk.pc.Collect? || wk.pc == PutFinalizers(END)))
  }

  ghost predicate AllLeaving(w: World) {
    w.history != [] && Current(w).deleting && w.workers.Keys <= {0} && (0 in w.workers ==> Leaving(w.workers[0]))
  }

  lemma {:induction false} LeavingPark(w: World, wk: Worker)
    requires w.history != [] && Current(w).deleting && w.workers.Keys <= {0} && (wk.pc.Idle? || Leaving(wk))
    ensures AllLeaving(Park(w, 0, wk))
  {
  }

  lemma {:induction false} DispatchLeaves(cfg: Config, wk: Worker)
    requires wk.inst.deleting
    ensures var d, f := Dispatch(cfg, wk), Finalize(wk); (d.pc.Idle? || Leaving(d)) && (f.pc.Idle? || Leaving(f))
  {
  }

  lemma {:induction false} LeavingWrite(cfg: Config, w: World, wk: Worker, o: Outcome)
    requires AllLeaving(w) && 0 in w.workers && wk == w.workers[0] && Writes(wk.pc)
    ensures AllLeaving(StepWrite(cfg, w, 0, wk, o))
  {
    if Accepted(w, wk, o) {
      var w1 := Stored(w, NewRevision(Current(w), wk));
      var again := wk.(inst := Load(w1.history, |w.history|));
      assert Current(w1).deleting && again.inst.deleting;
      DispatchLeaves(cfg, again);
      LeavingPark(w1, Wrote(cfg, again));
    } else {
      LeavingPark(w, wk.(pc := END));
    }
  }

  lemma {:induction false} LeavingRead(cfg: Config, w: World, wk: Worker, o: Outcome)
    requires AllLeaving(w) && 0 in w.workers && wk == w.workers[0] && !Writes(wk.pc) && o.version == |w.history| - 1
    ensures AllLeaving(StepRead(cfg, w, 0, wk, o))
  {
    if wk.pc.Refetch? {
      DispatchLeaves(cfg, wk.(inst := Load(w.history, o.version)));
    } else {
      DispatchLeaves(cfg, wk);
    }
    LeavingPark(w.(pushed := Pushes(w, wk, o)), Resume(cfg, w.history, wk, o));
  }

  lemma {:induction false} LeavingOn(cfg: Config, w: World, outcomes: seq<Outcome>)
    requires AllLeaving(w) && LatestReads(cfg, w, outcomes)
    ensures AllLeaving(Acts(cfg, w, outcomes))
    decreases |outcomes|
  {
    if outcomes != [] {
      if 0 in w.workers {
        if Writes(w.workers[0].pc) {
          LeavingWrite(cfg, w, w.workers[0], outcomes[0]);
        } else {
          LeavingRead(cfg, w, w.workers[0], outcomes[0]);
        }
      }
      LeavingOn(cfg, Next(cfg, w, Act(0, outcomes[0])), outcomes[1..]);
    }
  }

  lemma {:induction false} LeavingBegan(cfg: Config, w: World, clock: Clock)
    requires w.history != [] && Current(w).deleting && w.workers == map[]
    ensures AllLeaving(Began(cfg, w, clock))
  {
    DispatchLeaves(cfg, Worker(END, Latest(w), false));
    LeavingPark(w, Start(cfg, Latest(w), clock));
  }

  /**
   Once the delete after a deadline stop goes through, the operation is gone or every later fresh pass, whatever
   fails in it, stays away from the TTL; so the panic needs a failed delete or a stale read.
   */
  lemma {:induction false} DeletedStaysAwayFromTtl(
      cfg: Config, w: World, wk: Worker, o: Outcome, clock: Clock, outcomes: seq<Outcome>)
    requires AtWork(w, wk) && wk.pc.Delete? && wk.pc.next == END && !o.fails
    requires LatestReads(cfg, Began(cfg, Next(cfg, w, Act(0, o)), clock), outcomes)
    ensures var w1 := Next(cfg, w, Act(0, o));
            var w2 := Acts(cfg, Began(cfg, w1, clock), outcomes);
            w1.gone || (Current(w1).deleting && (0 in w2.workers ==> !w2.workers[0].pc.Ttl?))
  {
    var w1 := Next(cfg, w, Act(0, o));
    DeleteTakesEffect(cfg, w, wk, o);
    if !w1.gone {
      LeavingBegan(cfg, w1, clock);
      LeavingOn(cfg, Began(cfg, w1, clock), outcomes);
    }
  }

  lemma {:induction false} DeleteTakesEffect(cfg: Config, w: World, wk: Worker, o: Outcome)
    requires AtWork(w, wk) && wk.pc.Delete? && wk.pc.next == END && !o.fails
    ensures var w1 := Next(cfg, w, Act(0, o)); w1.workers == map[] && (w1.gone || Current(w1).deleting)
  {
    assert map[0 := wk] - {0} == map[];
  }
}
