/**
 The first half of an error-free pass: it sets the start time and the finalizers the operator asks for, comes to the
 child, and finds it, creates it, or records that it is gone.
 */
module ProtocolChildren {
  import opened Prelude
  import opened Conditions
  import opened ConditionHistory
  import opened Protocol
  import opened ProtocolSafety
  import opened ProtocolRuns
  import opened ProtocolDeletion
  import opened ProtocolPasses

  // ---- up to the child ----

  /** The finalizers a running operation should have. */
  function Wanted(cfg: Config, finalizers: set<Finalizer>): set<Finalizer> {
    finalizers + (if cfg.logsFinalizers then {LogsFinalizer} else {})
    + (if cfg.statusFinalizers then {StatusFinalizer} else {})
  }

  predicate LogsInPlace(cfg: Config, r: Revision) { cfg.logsFinalizers ==> LogsFinalizer in r.finalizers }

  predicate StatusInPlace(cfg: Config, r: Revision) { cfg.statusFinalizers ==> StatusFinalizer in r.finalizers }

  /** The start time the pass works with: the one stored, or the time it began. */
  function StartOf(s: Status, clock: Clock): Option<int> { if s.start.Some? then s.start else Some(clock.before) }

  /** How many calls are left before the child is looked up. */
  function CallsToChild(pc: Pc): nat {
    match pc
    case WriteStart => 6
    case Refetch(stage) => (match stage case StartSet => 5 case LogsAdded => 3 case StatusAdded => 1)
    case AddLogs => 4
    case AddStatus => 2
    case _ => 0
  }

  /** The operation is not done and no one deletes it; its finalizers have only grown towards the wanted ones. */
  ghost predicate Growing(cfg: Config, w: World, first: Revision) {
    && w.history != [] && !w.gone && !Current(w).deleting && !Done(first.status.conditions)
    && first.finalizers <= Current(w).finalizers <= Wanted(cfg, first.finalizers)
  }

  /** The stages of a pass that began with this revision, up to the child. */
  ghost predicate Prepares(cfg: Config, w: World, wk: Worker, first: Revision, clock: Clock) {
    && Growing(cfg, w, first)
    && Current(w).status == first.status.(start := if wk.pc.WriteStart? then None else StartOf(first.status, clock))
    && match wk.pc
       case WriteStart => first.status.start.None? && wk.inst == Latest(w).(status := wk.inst.status)
                          && wk.inst.status == first.status.(start := Some(clock.before))
       case Refetch(stage) =>
         && Clustered(cfg.kind) && (!stage.StartSet? ==> LogsInPlace(cfg, Current(w)))
         && (stage.StatusAdded? ==> StatusInPlace(cfg, Current(w)))
       case AddLogs =>
         cfg.logsFinalizers && wk.inst == Latest(w).(finalizers := Current(w).finalizers + {LogsFinalizer})
       case AddStatus =>
         && cfg.statusFinalizers && LogsInPlace(cfg, Current(w))
         && wk.inst == Latest(w).(finalizers := Current(w).finalizers + {StatusFinalizer})
       case GetChild => wk.inst == Latest(w) && LogsInPlace(cfg, Current(w)) && StatusInPlace(cfg, Current(w))
       case _ => false
  }

  lemma {:induction false} AfterLogsPrepares(cfg: Config, w: World, wk: Worker, first: Revision, clock: Clock)
    requires Growing(cfg, w, first) && Current(w).status == first.status.(start := StartOf(first.status, clock))
    requires wk.inst == Latest(w) && LogsInPlace(cfg, Current(w))
    ensures var next := AfterLogs(cfg, wk); Prepares(cfg, w, next, first, clock) && CallsToChild(next.pc) <= 2
  {
  }

  lemma {:induction false} DispatchPrepares(cfg: Config, w: World, wk: Worker, first: Revision, clock: Clock)
    requires Growing(cfg, w, first) && Current(w).status == first.status.(start := StartOf(first.status, clock))
    requires wk.inst == Latest(w)
    ensures var next := Dispatch(cfg, wk); Prepares(cfg, w, next, first, clock) && CallsToChild(next.pc) <= 4
  {
    if LogsInPlace(cfg, Current(w)) {
      AfterLogsPrepares(cfg, w, wk, first, clock);
    }
  }

  lemma {:induction false} WritePrepares(cfg: Config, w: World, wk: Worker, first: Revision, clock: Clock)
    requires Prepares(cfg, w, wk, first, clock) && Writes(wk.pc)
    ensures var w1 := Stored(w, NewRevision(Current(w), wk));
            var next := Wrote(cfg, wk.(inst := Load(w1.history, |w.history|)));
            Prepares(cfg, w1, next, first, clock) && CallsToChild(next.pc) < CallsToChild(wk.pc)
  {
    var w1 := Stored(w, NewRevision(Current(w), wk));
    var again := wk.(inst := Load(w1.history, |w.history|));
    assert Current(w1) == NewRevision(Current(w), wk) && again.inst == Latest(w1);
    if !Clustered(cfg.kind) {
      match wk.pc
      case WriteStart => DispatchPrepares(cfg, w1, again, first, clock);
      case AddLogs => AfterLogsPrepares(cfg, w1, again, first, clock);
      case AddStatus =>
    }
  }

  lemma {:induction false} RefetchPrepares(cfg: Config, w: World, wk: Worker, o: Outcome, first: Revision, clock: Clock)
    requires Prepares(cfg, w, wk, first, clock) && wk.pc.Refetch? && !o.fails && o.version == |w.history| - 1
    ensures var next := Resume(cfg, w.history, wk, o);
            Prepares(cfg, w, next, first, clock) && CallsToChild(next.pc) < CallsToChild(wk.pc)
  {
    var again := wk.(inst := Latest(w));
    match wk.pc.stage
    case StartSet => DispatchPrepares(cfg, w, again, first, clock);
    case LogsAdded => AfterLogsPrepares(cfg, w, again, first, clock);
    case StatusAdded =>
  }

  /** The worker of the world prepares. */
  ghost predicate Preparing(cfg: Config, w: World, first: Revision, clock: Clock) {
    w.workers.Keys == {0} && Prepares(cfg, w, w.workers[0], first, clock)
  }

  lemma {:induction false} ParkPrepares(cfg: Config, w: World, wk: Worker, first: Revision, clock: Clock)
    requires w.workers.Keys <= {0} && Prepares(cfg, w, wk, first, clock)
    ensures Preparing(cfg, Park(w, 0, wk), first, clock) && Park(w, 0, wk).workers[0] == wk
  {
  }

  lemma {:induction false} PrepareStep(cfg: Config, w: World, o: Outcome, first: Revision, clock: Clock)
    requires Preparing(cfg, w, first, clock) && !w.workers[0].pc.GetChild?
    requires !o.fails && o.version == |w.history| - 1
    ensures var w' := Next(cfg, w, Act(0, o));
            && Preparing(cfg, w', first, clock)
            && CallsToChild(w'.workers[0].pc) < CallsToChild(w.workers[0].pc)
  {
    var wk := w.workers[0];
    if wk.pc.Refetch? {
      RefetchPrepares(cfg, w, wk, o, first, clock);
      ParkPrepares(cfg, Called(w, wk, o), Resume(cfg, w.history, wk, o), first, clock);
    } else {
      assert Accepted(w, wk, o);
      WritePrepares(cfg, w, wk, first, clock);
      var w1 := Stored(w, NewRevision(Current(w), wk));
      ParkPrepares(cfg, w1, Wrote(cfg, wk.(inst := Load(w1.history, |w.history|))), first, clock);
    }
  }

  lemma {:induction false} PrepareOn(
      cfg: Config, w: World, outs: seq<Outcome>, first: Revision, clock: Clock) returns (k: nat)
    requires Preparing(cfg, w, first, clock) && Smooth(cfg, w, outs) && CallsToChild(w.workers[0].pc) <= |outs|
    ensures k <= |outs| && k <= CallsToChild(w.workers[0].pc)
    ensures var w' := Acts(cfg, w, outs[..k]); Preparing(cfg, w', first, clock) && w'.workers[0].pc.GetChild?
    decreases |outs|
  {
    if w.workers[0].pc.GetChild? {
      k := 0;
    } else {
      PrepareStep(cfg, w, outs[0], first, clock);
      var j := PrepareOn(cfg, Next(cfg, w, Act(0, outs[0])), outs[1..], first, clock);
      k := j + 1;
      assert outs[..k][1..] == outs[1..][..j] && outs[..k][0] == outs[0];
    }
  }

  lemma {:induction false} BeganPrepares(cfg: Config, w: World, clock: Clock)
    requires w.history != [] && w.workers == map[] && !w.gone && !Current(w).deleting
    requires !Done(Current(w).status.conditions)
    ensures Preparing(cfg, Began(cfg, w, clock), Current(w), clock)
    ensures CallsToChild(Began(cfg, w, clock).workers[0].pc) <= 6
  {
    var wk := Worker(END, Latest(w), false);
    var start := Start(cfg, Latest(w), clock);
    if Current(w).status.start.Some? {
      DispatchPrepares(cfg, w, wk, Current(w), clock);
      assert start == Dispatch(cfg, wk);
    }
    ParkPrepares(cfg, w, start, Current(w), clock);
  }

  /**
   A successful pass over an operation that is neither done nor deleting comes to the child within six calls: by
   then the start time is stored, the one of the pass if there was none, along with exactly the finalizers asked
   for, and nothing else about the operation has changed.
   */
  lemma {:induction false} ReachesChild(cfg: Config, w: World, clock: Clock, outs: seq<Outcome>) returns (k: nat)
    requires w.history != [] && w.workers == map[] && !w.gone && !Current(w).deleting
    requires !Done(Current(w).status.conditions) && Smooth(cfg, Began(cfg, w, clock), outs) && |outs| >= 6
    ensures k <= 6
    ensures var w', r := Acts(cfg, Began(cfg, w, clock), outs[..k]), Current(w);
            && w'.workers.Keys == {0} && w'.workers[0].pc.GetChild? && AtWork(w', w'.workers[0])
            && Current(w').status == r.status.(start := StartOf(r.status, clock))
            && Current(w').finalizers == Wanted(cfg, r.finalizers)
  {
    BeganPrepares(cfg, w, clock);
    k := PrepareOn(cfg, Began(cfg, w, clock), outs, Current(w), clock);
    Prepared(cfg, Acts(cfg, Began(cfg, w, clock), outs[..k]), Current(w), clock);
  }

  lemma {:induction false} Prepared(cfg: Config, w: World, first: Revision, clock: Clock)
    requires Preparing(cfg, w, first, clock) && w.workers[0].pc.GetChild?
    ensures AtWork(w, w.workers[0]) && Current(w).status == first.status.(start := StartOf(first.status, clock))
    ensures Current(w).finalizers == Wanted(cfg, first.finalizers)
  {
    assert w.workers == map[0 := w.workers[0]];
  }

  // ---- at the child ----

  lemma {:induction false} LookedUp(cfg: Config, w: World, wk: Worker, o: Outcome, next: Pc)
    requires AtWork(w, wk) && wk.pc.GetChild? && !o.fails && (next.UpdateChild? || next.CreateChild?)
    requires if next.UpdateChild? then o.found
             else !o.found && MissingChild(cfg, wk, MissingEntry(cfg.kind), o) == wk.(pc := next)
    ensures Next(cfg, w, Act(0, o)) == With(w, wk.(pc := next))
  {
    assert With(w, wk) == w;
    assert Resume(cfg, w.history, wk, o) == wk.(pc := next);
    ReadTaken(cfg, w, wk, o, wk.(pc := next));
  }

  /** A child that is there is updated if needed and then observed. */
  lemma {:induction false} ChildIsFound(cfg: Config, w: World, wk: Worker, o1: Outcome, o2: Outcome)
    requires AtWork(w, wk) && wk.pc.GetChild? && !o1.fails && o1.found && !o2.fails
    ensures Next(cfg, Next(cfg, w, Act(0, o1)), Act(0, o2)) == With(w, wk.(pc := Observe(false)))
  {
    LookedUp(cfg, w, wk, o1, UpdateChild);
    var updating := wk.(pc := UpdateChild);
    assert Resume(cfg, w.history, updating, o2) == wk.(pc := Observe(false));
    ReadTaken(cfg, w, updating, o2, wk.(pc := Observe(false)));
  }

  /** The world of a worker that has just created the child and holds the latest revision. */
  lemma {:induction false} CreatedIsTold(cfg: Config, w: World, wk: Worker, o: Outcome, o1: Outcome, o2: Outcome)
    requires Live(w) && wk.inst == Latest(w) && !o1.fails && !o2.fails
    ensures var w' := Next(cfg, Next(cfg, With(w, ChildCreated(cfg, wk, o)), Act(0, o1)), Act(0, o2));
            && Told(w, w', Record(Current(w).status, StartingEntry(), o.clock, None))
            && Live(w') && AtWork(w', wk.(pc := Observe(true), inst := Latest(w')))
  {
    var recorded := ChildCreated(cfg, wk, o);
    LoggedIsNotEmpty(wk.inst.status.conditions, StartingEntry(), o.clock);
    WriteAndPush(cfg, w, recorded, Observe(true), o1, o2);
    var w' := Next(cfg, Next(cfg, With(w, recorded), Act(0, o1)), Act(0, o2));
    ToldIsLive(w, w', recorded.inst.status);
  }

  lemma {:induction false} CreateGranted(cfg: Config, w: World, wk: Worker, o: Outcome)
    requires w.history != [] && wk.pc.CreateChild? && !o.fails && !Clustered(cfg.kind)
    ensures Next(cfg, With(w, wk), Act(0, o)) ==
            With(w.(creates := w.creates + [|w.history|]), ChildCreated(cfg, wk, o))
  {
    assert Resume(cfg, w.history, wk, o) == ChildCreated(cfg, wk, o);
    CreateTaken(cfg, w, wk, o, ChildCreated(cfg, wk, o));
  }

  lemma {:induction false} ClusterCreateGranted(cfg: Config, w: World, wk: Worker, o: Outcome, reread: Outcome)
    requires w.history != [] && wk.pc.CreateChild? && !o.fails && Clustered(cfg.kind)
    requires !reread.fails && reread.version == |w.history| - 1
    ensures Next(cfg, Next(cfg, With(w, wk), Act(0, o)), Act(0, reread)) ==
            var refetched := wk.(pc := RefetchCreated, inst := Latest(w));
            With(w.(creates := w.creates + [|w.history|]), ChildCreated(cfg, refetched, reread))
  {
    var refetching := wk.(pc := RefetchCreated);
    assert Resume(cfg, w.history, wk, o) == refetching;
    CreateTaken(cfg, w, wk, o, refetching);
    var w1 := w.(creates := w.creates + [|w.history|]);
    var created := ChildCreated(cfg, refetching.(inst := Latest(w)), reread);
    assert Resume(cfg, w1.history, refetching, reread) == created;
    ReadTaken(cfg, w1, refetching, reread, created);
  }

  /** The child was created once, and Starting stored and pushed; the pass goes on to observe it. */
  ghost predicate CreatedOnce(w: World, w': World, wk: Worker, clock: Clock)
    requires w.history != []
  {
    && Told(w.(creates := w.creates + [|w.history|]), w', Record(Current(w).status, StartingEntry(), clock, None))
    && Live(w') && AtWork(w', wk.(pc := Observe(true), inst := Latest(w')))
  }

  /**
   A child that is missing and was never there is created: one create is issued, Starting is stored and pushed, and
   the pass goes on to its status decision.
   */
  lemma {:induction false} ChildIsCreated(
      cfg: Config, w: World, wk: Worker, missing: Outcome, granted: Outcome, o1: Outcome, o2: Outcome)
    requires AtWork(w, wk) && wk.pc.GetChild? && !missing.fails && !missing.found && !Clustered(cfg.kind)
    requires WellFormed(wk.inst.status.conditions) && !Done(wk.inst.status.conditions)
    requires !RulesOutCreate(cfg.kind, wk.inst.status) && !granted.fails && !o1.fails && !o2.fails
    ensures var w2 := Next(cfg, Next(cfg, w, Act(0, missing)), Act(0, granted));
            CreatedOnce(w, Next(cfg, Next(cfg, w2, Act(0, o1)), Act(0, o2)), wk, granted.clock)
  {
    var creating := wk.(pc := CreateChild);
    assert Next(cfg, w, Act(0, missing)) == With(w, creating) by {
      MissingGoesToCreate(cfg, wk, missing);
      LookedUp(cfg, w, wk, missing, CreateChild);
    }
    CreateGranted(cfg, w, creating, granted);
    CreatedIsOnce(cfg, w, wk, creating, granted, o1, o2);
  }

  lemma {:induction false} CreatedIsOnce(
      cfg: Config, w: World, wk: Worker, created: Worker, o: Outcome, o1: Outcome, o2: Outcome)
    requires Live(w) && created == wk.(pc := created.pc, inst := Latest(w)) && !o1.fails && !o2.fails
    ensures var tried := w.(creates := w.creates + [|w.history|]);
            var w2 := With(tried, ChildCreated(cfg, created, o));
            CreatedOnce(w, Next(cfg, Next(cfg, w2, Act(0, o1)), Act(0, o2)), wk, o.clock)
  {
    var tried := w.(creates := w.creates + [|w.history|]);
    assert Live(tried) && Current(tried) == Current(w) && Latest(tried) == Latest(w);
    CreatedIsTold(cfg, tried, created, o, o1, o2);
  }

  lemma {:induction false} MissingGoesToCreate(cfg: Config, wk: Worker, missing: Outcome)
    requires WellFormed(wk.inst.status.conditions) && !Done(wk.inst.status.conditions)
    requires !RulesOutCreate(cfg.kind, wk.inst.status)
    ensures MissingChild(cfg, wk, MissingEntry(cfg.kind), missing) == wk.(pc := CreateChild)
  {
    ProgressedTail(wk.inst.status);
  }

  /** The same for a cluster, which reads the operation again after its create. */
  lemma {:induction false} ClusterIsCreated(
      cfg: Config, w: World, wk: Worker, missing: Outcome, granted: Outcome, reread: Outcome, o1: Outcome, o2: Outcome)
    requires AtWork(w, wk) && wk.pc.GetChild? && !missing.fails && !missing.found && Clustered(cfg.kind)
    requires wk.inst.status.conditions == [] && !granted.fails && !o1.fails && !o2.fails
    requires !reread.fails && reread.version == |w.history| - 1
    ensures var w3 := Next(cfg, Next(cfg, Next(cfg, w, Act(0, missing)), Act(0, granted)), Act(0, reread));
            CreatedOnce(w, Next(cfg, Next(cfg, w3, Act(0, o1)), Act(0, o2)), wk, reread.clock)
  {
    var creating := wk.(pc := CreateChild);
    assert Next(cfg, w, Act(0, missing)) == With(w, creating) by {
      assert MissingChild(cfg, wk, MissingEntry(cfg.kind), missing) == creating;
      LookedUp(cfg, w, wk, missing, CreateChild);
    }
    ClusterCreateGranted(cfg, w, creating, granted, reread);
    CreatedIsOnce(cfg, w, wk, wk.(pc := RefetchCreated, inst := Latest(w)), reread, o1, o2);
  }

  /** A Job or KfJob whose child went missing after creation is stored and pushed as stopped, with its completion. */
  lemma {:induction false} MissingJobStops(
      cfg: Config, w: World, wk: Worker, missing: Outcome, o1: Outcome, o2: Outcome)
    requires AtWork(w, wk) && wk.pc.GetChild? && !missing.fails && !missing.found && Marking(cfg.kind)
    requires WellFormed(wk.inst.status.conditions) && !Done(wk.inst.status.conditions) && Progressed(wk.inst.status)
    requires !o1.fails && !o2.fails
    ensures var w' := Next(cfg, Next(cfg, Next(cfg, w, Act(0, missing)), Act(0, o1)), Act(0, o2));
            var t := Record(wk.inst.status, MissingEntry(cfg.kind), missing.clock, Some(missing.clock.before));
            Told(w, w', t) && w'.workers == map[] && Has(t.conditions, Stopped) && t.completion.Some?
  {
    var stop, s := MissingEntry(cfg.kind), wk.inst.status;
    var recorded := Recording(wk, stop, missing.clock, Some(missing.clock.before), Push(END), END);
    assert With(w, wk) == w;
    MissingJobRecords(cfg, w, wk, missing);
    LoggedIsNotEmpty(s.conditions, stop, missing.clock);
    WriteAndPush(cfg, w, recorded, END, o1, o2);
    MissingEntryKind(cfg.kind);
    HasLogged(s.conditions, stop, missing.clock, Stopped);
  }

  lemma {:induction false} MissingJobRecords(cfg: Config, w: World, wk: Worker, missing: Outcome)
    requires w.history != [] && wk.pc.GetChild? && !missing.fails && !missing.found && Marking(cfg.kind)
    requires WellFormed(wk.inst.status.conditions) && !Done(wk.inst.status.conditions) && Progressed(wk.inst.status)
    ensures var stop := MissingEntry(cfg.kind);
            Next(cfg, With(w, wk), Act(0, missing)) ==
            With(w, Recording(wk, stop, missing.clock, Some(missing.clock.before), Push(END), END))
  {
    ProgressedTail(wk.inst.status);
    var next := MissingChild(cfg, wk, MissingEntry(cfg.kind), missing);
    assert Resume(cfg, w.history, wk, missing) == next;
    ReadTaken(cfg, w, wk, missing, next);
  }

  /** A create that fails is reported as a warning with the error, if that is news; then the pass is over. */
  lemma {:induction false} CreateFailureWarns(
      cfg: Config, w: World, wk: Worker, failed: Outcome, o1: Outcome, o2: Outcome)
    requires AtWork(w, wk) && wk.pc.CreateChild? && failed.fails && !o1.fails && !o2.fails
    ensures var w' := Next(cfg, Next(cfg, Next(cfg, w, Act(0, failed)), Act(0, o1)), Act(0, o2));
            var tried := w.(creates := w.creates + [|w.history|]);
            var e := WarningEntry(CreateReason(cfg.kind), failed.error);
            && w'.workers == map[]
            && if LogChanges(wk.inst.status.conditions, e)
               then Told(tried, w', Record(wk.inst.status, e, failed.clock, None)) else w' == Resting(tried)
  {
    var e := WarningEntry(CreateReason(cfg.kind), failed.error);
    var tried := w.(creates := w.creates + [|w.history|]);
    assert With(w, wk) == w;
    FailedCreate(cfg, w, wk, failed, e);
    if LogChanges(wk.inst.status.conditions, e) {
      LoggedIsNotEmpty(wk.inst.status.conditions, e, failed.clock);
      WriteAndPush(cfg, tried, Recording(wk, e, failed.clock, None, Push(END), END), END, o1, o2);
    } else {
      IdleStays(cfg, Resting(tried), o1);
      IdleStays(cfg, Resting(tried), o2);
    }
  }

  lemma {:induction false} FailedCreate(cfg: Config, w: World, wk: Worker, failed: Outcome, e: Entry)
    requires w.history != [] && wk.pc.CreateChild? && failed.fails
    requires e == WarningEntry(CreateReason(cfg.kind), failed.error)
    ensures var tried := w.(creates := w.creates + [|w.history|]);
            Next(cfg, With(w, wk), Act(0, failed)) ==
            if LogChanges(wk.inst.status.conditions, e)
            then With(tried, Recording(wk, e, failed.clock, None, Push(END), END)) else Resting(tried)
  {
    var next := WarnAndEnd(wk, e, failed.clock);
    assert Resume(cfg, w.history, wk, failed) == next;
    if LogChanges(wk.inst.status.conditions, e) {
      CreateTaken(cfg, w, wk, failed, next);
    } else {
      assert map[0 := wk] - {0} == map[];
    }
  }
}
