/** Why a cluster's reads must have caught up with its own writes: a stale pass can store a second end state. */
module ProtocolStale {
  import opened Prelude
  import opened Conditions
  import opened ConditionHistory
  import opened Pods
  import opened Verdicts
  import opened Protocol
  import opened ProtocolSafety
  import opened ProtocolRuns
  import opened ProtocolDeletion

  /** What such a pass stores in the end: Starting, then a bad image name. */
  function StartedThenFailed(s: Status, message: string, c1: Clock, c2: Clock): Status {
    Record(Record(s, StartingEntry(), c1, None), Entry(Failed, INVALID_IMAGE, message), c2, Some(c2.before))
  }

  lemma {:induction false} StartedThenFailedHas(s: Status, message: string, c1: Clock, c2: Clock, kind: ConditionType)
    requires WellFormed(s.conditions)
    ensures Has(StartedThenFailed(s, message, c1, c2).conditions, kind) <==>
              kind in {Starting, Failed} || Has(s.conditions, kind)
  {
    var started := Record(s, StartingEntry(), c1, None);
    LoggedWellFormed(s.conditions, StartingEntry(), c1);
    HasLogged(s.conditions, StartingEntry(), c1, kind);
    HasLogged(started.conditions, Entry(Failed, INVALID_IMAGE, message), c2, kind);
  }

  /** That holds two end states exactly when one other than Failed was there before. */
  lemma {:induction false} StartedThenFailedEnds(s: Status, message: string, c1: Clock, c2: Clock)
    requires WellFormed(s.conditions)
    ensures OneTerminal(StartedThenFailed(s, message, c1, c2).conditions) <==>
              !Has(s.conditions, Succeeded) && !Has(s.conditions, Stopped)
  {
    var ended := StartedThenFailed(s, message, c1, c2).conditions;
    forall kind
      ensures Has(ended, kind) <==> kind in {Starting, Failed} || Has(s.conditions, kind)
    {
      StartedThenFailedHas(s, message, c1, c2, kind);
    }
    assert Has(ended, Failed);
    if OneTerminal(ended) {
      assert Has(ended, Succeeded) ==> Succeeded == Failed;
      assert Has(ended, Stopped) ==> Stopped == Failed;
    }
  }

  /** A bad image name outranks everything in every kind's decision. */
  lemma {:induction false} BadImageDecides(cfg: Config, conditions: seq<Condition>, seen: Observation)
    requires InvalidImage(seen.pods).Some?
    ensures Decide(cfg, conditions, seen) == FailsImage(InvalidImage(seen.pods).value)
  {
  }

  // ---- the steps ----

  lemma {:induction false} RereadRecordsStarting(cfg: Config, w: World, wk: Worker, reread: Outcome)
    requires w.history != [] && Clustered(cfg.kind) && wk.pc.RefetchCreated?
    requires !reread.fails && reread.version == |w.history| - 1
    ensures Next(cfg, With(w, wk), Act(0, reread)) ==
            With(w, Recording(wk.(inst := Latest(w)), StartingEntry(), reread.clock, None, Push(Observe(true)), END))
  {
    assert Resume(cfg, w.history, wk, reread) == ChildCreated(cfg, wk.(inst := Latest(w)), reread);
    ReadTaken(cfg, w, wk, reread, ChildCreated(cfg, wk.(inst := Latest(w)), reread));
  }

  lemma {:induction false} BadImageIsSettled(cfg: Config, wk: Worker, message: string, seen: Outcome)
    requires Clustered(cfg.kind)
    ensures Settled(cfg, wk, FailsImage(message), seen) ==
            Recording(wk, Entry(Failed, INVALID_IMAGE, message), seen.clock, Some(seen.clock.before),
                      Push(Deadline), END)
  {
  }

  lemma {:induction false} BadImageIsRecorded(cfg: Config, w: World, wk: Worker, message: string, seen: Outcome)
    requires w.history != [] && Clustered(cfg.kind) && wk.pc == Observe(true)
    requires InvalidImage(seen.seen.pods) == Some(message)
    ensures var e := Entry(Failed, INVALID_IMAGE, message);
            Next(cfg, With(w, wk), Act(0, seen)) ==
            With(w, Recording(wk, e, seen.clock, Some(seen.clock.before), Push(Deadline), END))
  {
    BadImageResumes(cfg, w.history, wk, message, seen);
    ReadTaken(cfg, w, wk, seen, Resume(cfg, w.history, wk, seen));
  }

  lemma {:induction false} BadImageResumes(cfg: Config, h: seq<Revision>, wk: Worker, message: string, seen: Outcome)
    requires Clustered(cfg.kind) && wk.pc == Observe(true) && InvalidImage(seen.seen.pods) == Some(message)
    ensures Resume(cfg, h, wk, seen) ==
            Recording(wk, Entry(Failed, INVALID_IMAGE, message), seen.clock, Some(seen.clock.before),
                      Push(Deadline), END)
  {
    BadImageDecides(cfg, wk.inst.status.conditions, Blank(seen.seen));
    BadImageIsSettled(cfg, wk, message, seen);
    assert Resume(cfg, h, wk, seen) == Observed(cfg, wk, seen, true);
  }

  /** Five calls of one pass: the operation is read again, Starting is stored and pushed, and the child is judged. */
  function RestOfPass(
      cfg: Config, w: World, reread: Outcome, o1: Outcome, o2: Outcome, seen: Outcome, o3: Outcome): World
    requires w.history != []
  {
    var w1 := Next(cfg, Next(cfg, Next(cfg, w, Act(0, reread)), Act(0, o1)), Act(0, o2));
    Next(cfg, Next(cfg, w1, Act(0, seen)), Act(0, o3))
  }

  lemma {:induction false} StartingIsStored(
      cfg: Config, w: World, wk: Worker, reread: Outcome, o1: Outcome, o2: Outcome)
    requires Live(w) && w.workers == map[0 := wk] && Clustered(cfg.kind) && wk.pc.RefetchCreated?
    requires !reread.fails && reread.version == |w.history| - 1 && !o1.fails
    requires WellFormed(Current(w).status.conditions)
    ensures var w' := Next(cfg, Next(cfg, Next(cfg, w, Act(0, reread)), Act(0, o1)), Act(0, o2));
            && |w'.history| == |w.history| + 1 && Live(w')
            && Current(w').status == Record(Current(w).status, StartingEntry(), reread.clock, None)
            && w' == With(w', wk.(pc := Observe(true), inst := Latest(w')))
  {
    var started := Recording(wk.(inst := Latest(w)), StartingEntry(), reread.clock, None, Push(Observe(true)), END);
    assert With(w, wk) == w;
    RereadRecordsStarting(cfg, w, wk, reread);
    LoggedWellFormed(Current(w).status.conditions, StartingEntry(), reread.clock);
    StopStored(cfg, w, started, Observe(true), o1, o2);
  }

  lemma {:induction false} FailureIsStored(
      cfg: Config, w: World, wk: Worker, message: string, seen: Outcome, o: Outcome)
    requires Live(w) && Clustered(cfg.kind) && wk.pc == Observe(true) && wk.inst == Latest(w) && !o.fails
    requires InvalidImage(seen.seen.pods) == Some(message)
    ensures var w' := Next(cfg, Next(cfg, With(w, wk), Act(0, seen)), Act(0, o));
            var e := Entry(Failed, INVALID_IMAGE, message);
            && |w'.history| == |w.history| + 1
            && Current(w').status == Record(Current(w).status, e, seen.clock, Some(seen.clock.before))
  {
    var e := Entry(Failed, INVALID_IMAGE, message);
    BadImageIsRecorded(cfg, w, wk, message, seen);
    WriteStored(cfg, w, Recording(wk, e, seen.clock, Some(seen.clock.before), Push(Deadline), END), o);
  }

  lemma {:induction false} RestOfPassStores(
      cfg: Config, w: World, wk: Worker, message: string,
      reread: Outcome, o1: Outcome, o2: Outcome, seen: Outcome, o3: Outcome)
    requires Live(w) && w.workers == map[0 := wk] && Clustered(cfg.kind) && wk.pc.RefetchCreated?
    requires !reread.fails && reread.version == |w.history| - 1 && !o1.fails && !o3.fails
    requires InvalidImage(seen.seen.pods) == Some(message) && WellFormed(Current(w).status.conditions)
    ensures var w' := RestOfPass(cfg, w, reread, o1, o2, seen, o3);
            && |w'.history| == |w.history| + 2
            && Current(w').status == StartedThenFailed(Current(w).status, message, reread.clock, seen.clock)
  {
    StartingIsStored(cfg, w, wk, reread, o1, o2);
    var w1 := Next(cfg, Next(cfg, Next(cfg, w, Act(0, reread)), Act(0, o1)), Act(0, o2));
    FailureIsStored(cfg, w1, wk.(pc := Observe(true), inst := Latest(w1)), message, seen, o3);
  }

  /**
   A cluster pass that created the child from an old revision reads the operation again and goes on with what it
   reads, done or not. If its writes are accepted and the pods carry a bad image name, the stored status ends up
   with two different end states exactly when the status read again had already succeeded or stopped.
   */
  lemma {:induction false} StaleClusterPassEndsTwice(
      cfg: Config, w: World, wk: Worker, reread: Outcome, o1: Outcome, o2: Outcome, seen: Outcome, o3: Outcome)
    requires Live(w) && w.workers == map[0 := wk] && Clustered(cfg.kind) && wk.pc.RefetchCreated?
    requires !reread.fails && reread.version == |w.history| - 1 && !o1.fails && !o3.fails
    requires InvalidImage(seen.seen.pods).Some? && WellFormed(Current(w).status.conditions)
    ensures var w', before := RestOfPass(cfg, w, reread, o1, o2, seen, o3), Current(w).status.conditions;
            && |w'.history| == |w.history| + 2
            && (OneTerminal(Current(w').status.conditions) <==> !Has(before, Succeeded) && !Has(before, Stopped))
  {
    var message := InvalidImage(seen.seen.pods).value;
    RestOfPassStores(cfg, w, wk, message, reread, o1, o2, seen, o3);
    StartedThenFailedEnds(Current(w).status, message, reread.clock, seen.clock);
  }
}
