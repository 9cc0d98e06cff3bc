/**
 What an error-free pass does, call by call, for one worker: it reaches the child, creates or stops what is missing,
 stores and pushes its status decision, goes on to the base service, the deadline, the exits and culling, and deletes
 what is due.
 */
module ProtocolPasses {
  import opened Prelude
  import opened Conditions
  import opened ConditionHistory
  import opened Pods
  import opened Verdicts
  import opened ServiceStatus
  import opened Timing
  import opened Protocol
  import opened ProtocolSafety
  import opened ProtocolRuns
  import opened ProtocolDeletion
  import opened Decisions

  predicate Fine(outcomes: seq<Outcome>) { forall o :: o in outcomes ==> !o.fails }

  // ---- sequences of calls ----

  lemma {:induction false} ActsInParts(cfg: Config, w: World, a: seq<Outcome>, b: seq<Outcome>)
    requires w.history != []
    ensures Acts(cfg, w, a + b) == Acts(cfg, Acts(cfg, w, a), b)
    decreases |a|
  {
    if a == [] {
      assert a + b == b;
    } else {
      assert (a + b)[1..] == a[1..] + b;
      ActsInParts(cfg, Next(cfg, w, Act(0, a[0])), a[1..], b);
    }
  }

  lemma {:induction false} ActsOne(cfg: Config, w: World, outs: seq<Outcome>)
    requires w.history != [] && |outs| == 1
    ensures Acts(cfg, w, outs) == Next(cfg, w, Act(0, outs[0]))
  {
    assert outs[1..] == [];
  }

  lemma {:induction false} ActsTwo(cfg: Config, w: World, outs: seq<Outcome>)
    requires w.history != [] && |outs| == 2
    ensures Acts(cfg, w, outs) == Next(cfg, Next(cfg, w, Act(0, outs[0])), Act(0, outs[1]))
  {
    ActsOne(cfg, Next(cfg, w, Act(0, outs[0])), outs[1..]);
  }

  lemma {:induction false} ActsThree(cfg: Config, w: World, outs: seq<Outcome>)
    requires w.history != [] && |outs| == 3
    ensures Acts(cfg, w, outs) == Next(cfg, Next(cfg, Next(cfg, w, Act(0, outs[0])), Act(0, outs[1])), Act(0, outs[2]))
  {
    ActsTwo(cfg, Next(cfg, w, Act(0, outs[0])), outs[1..]);
  }

  lemma {:induction false} ActsFour(cfg: Config, w: World, outs: seq<Outcome>)
    requires w.history != [] && |outs| == 4
    ensures var w2 := Next(cfg, Next(cfg, w, Act(0, outs[0])), Act(0, outs[1]));
            Acts(cfg, w, outs) == Next(cfg, Next(cfg, w2, Act(0, outs[2])), Act(0, outs[3]))
  {
    ActsThree(cfg, Next(cfg, w, Act(0, outs[0])), outs[1..]);
  }

  lemma {:induction false} IdleStays(cfg: Config, w: World, o: Outcome)
    requires w.history != [] && 0 !in w.workers
    ensures Next(cfg, w, Act(0, o)) == w
  {
  }

  // ---- single calls ----

  function Resting(w: World): World { w.(workers := map[]) }

  lemma {:induction false} ReadEnds(cfg: Config, w: World, wk: Worker, o: Outcome)
    requires w.history != [] && !Writes(wk.pc) && !wk.pc.Delete? && !wk.pc.Push? && !wk.pc.PushStopped?
    requires !wk.pc.CreateChild? && !wk.pc.CreateBase? && Resume(cfg, w.history, wk, o).pc == END
    ensures Next(cfg, With(w, wk), Act(0, o)) == Resting(w)
  {
    assert map[0 := wk] - {0} == map[];
  }

  lemma {:induction false} PushEnds(cfg: Config, w: World, wk: Worker, o: Outcome)
    requires w.history != [] && wk.pc == Push(END) && wk.inst.status.conditions != []
    ensures Next(cfg, With(w, wk), Act(0, o)) == Resting(w.(pushed := Pushes(w, wk, o)))
  {
    assert map[0 := wk] - {0} == map[];
    assert Resume(cfg, w.history, wk, o) == wk.(pc := END);
  }

  lemma {:induction false} CreateTaken(cfg: Config, w: World, wk: Worker, o: Outcome, next: Worker)
    requires w.history != [] && wk.pc.CreateChild? && next == Resume(cfg, w.history, wk, o) && !next.pc.Idle?
    ensures Next(cfg, With(w, wk), Act(0, o)) == With(w.(creates := w.creates + [|w.history|]), next)
  {
  }

  lemma {:induction false} BaseTaken(cfg: Config, w: World, wk: Worker, o: Outcome)
    requires w.history != [] && wk.pc.CreateBase? && !o.fails
    ensures Next(cfg, With(w, wk), Act(0, o)) == With(w.(bases := w.bases + 1), wk.(pc := Deadline))
  {
    assert Resume(cfg, w.history, wk, o) == wk.(pc := Deadline);
  }

  // ---- a status that is recorded, stored and pushed ----

  /** The world after a status was stored and its last condition pushed, with the worker gone. */
  ghost predicate Told(w: World, w': World, s: Status)
    requires w.history != []
  {
    && w'.history == w.history + [Current(w).(status := s, cause := StatusWrite)]
    && w'.pushed == LastOf(s.conditions)
    && w'.gone == w.gone && w'.creates == w.creates && w'.bases == w.bases && w'.deletes == w.deletes
    && w'.panicked == w.panicked
  }

  lemma {:induction false} WriteAndPush(cfg: Config, w: World, wk: Worker, next: Pc, o1: Outcome, o2: Outcome)
    requires Live(w) && wk.pc.Write? && wk.pc.onOk == Push(next) && wk.inst.version == |w.history| - 1
    requires wk.inst.status.conditions != [] && !o1.fails && !o2.fails && (next.Idle? ==> next == END)
    ensures var w' := Next(cfg, Next(cfg, With(w, wk), Act(0, o1)), Act(0, o2));
            && Told(w, w', wk.inst.status)
            && if next.Idle? then w'.workers == map[] else w'.workers == map[0 := wk.(pc := next, inst := Latest(w'))]
  {
    var w1 := Stored(w, NewRevision(Current(w), wk));
    var again := wk.(pc := Push(next), inst := Load(w1.history, |w.history|));
    WriteStored(cfg, w, wk, o1);
    if next.Idle? {
      PushEnds(cfg, w1, again, o2);
    } else {
      PushSent(cfg, w1, again, o2);
    }
  }

  lemma {:induction false} LoggedIsNotEmpty(conditions: seq<Condition>, e: Entry, clock: Clock)
    ensures Logged(conditions, e, clock) != []
  {
  }

  // ---- the status decision ----

  /** The verdict on what the worker sees: right after a create, the child has reported nothing. */
  function VerdictOn(cfg: Config, wk: Worker, o: Outcome): Verdict
    requires wk.pc.Observe?
  {
    Decide(cfg, wk.inst.status.conditions, if wk.pc.justCreated then Blank(o.seen) else o.seen)
  }

  function DecisionTime(kind: Kind, clock: Clock): int { if kind == ServiceKind then clock.after else clock.before }

  lemma {:induction false} DecisionResumes(cfg: Config, h: seq<Revision>, wk: Worker, o: Outcome)
    requires wk.pc.Observe? && !VerdictOn(cfg, wk, o).Fault?
    ensures var v, next := VerdictOn(cfg, wk, o), Resume(cfg, h, wk, o);
            var on := if Marking(cfg.kind) then END else if cfg.kind == ServiceKind then GetBase else Deadline;
            if Updates(wk.inst.status, v)
            then
              var s := Apply(wk.inst.status, v, o.clock, DecisionTime(cfg.kind, o.clock));
              next == wk.(pc := Write(Push(on), END), inst := wk.inst.(status := s))
            else next == wk.(pc := on)
  {
    assert Resume(cfg, h, wk, o) == Settled(cfg, wk, VerdictOn(cfg, wk, o), o);
  }

  lemma {:induction false} QuietDecision(s: Status, v: Verdict, clock: Clock, now: int)
    requires !Updates(s, v)
    ensures Apply(s, v, clock, now) == s
  {
  }

  lemma {:induction false} DecisionIsTold(cfg: Config, w: World, wk: Worker, o: Outcome, o1: Outcome, o2: Outcome)
    requires AtWork(w, wk) && wk.pc.Observe? && !o1.fails && !o2.fails
    requires !VerdictOn(cfg, wk, o).Fault? && Updates(wk.inst.status, VerdictOn(cfg, wk, o))
    ensures var w' := Next(cfg, Next(cfg, Next(cfg, w, Act(0, o)), Act(0, o1)), Act(0, o2));
            var v := VerdictOn(cfg, wk, o);
            var on := if Marking(cfg.kind) then END else if cfg.kind == ServiceKind then GetBase else Deadline;
            && Told(w, w', Apply(wk.inst.status, v, o.clock, DecisionTime(cfg.kind, o.clock)))
            && if on.Idle? then w'.workers == map[] else w'.workers == map[0 := wk.(pc := on, inst := Latest(w'))]
  {
    var next := Resume(cfg, w.history, wk, o);
    DecisionResumes(cfg, w.history, wk, o);
    ReadTaken(cfg, w, wk, o, next);
    assert With(w, wk) == w;
    LoggedIsNotEmpty(wk.inst.status.conditions, VerdictOn(cfg, wk, o).entry, o.clock);
    WriteAndPush(cfg, w, next, next.pc.onOk.next, o1, o2);
  }

  lemma {:induction false} DecisionIsQuiet(cfg: Config, w: World, wk: Worker, o: Outcome)
    requires AtWork(w, wk) && wk.pc.Observe?
    requires !VerdictOn(cfg, wk, o).Fault? && !Updates(wk.inst.status, VerdictOn(cfg, wk, o))
    ensures var on := if Marking(cfg.kind) then END else if cfg.kind == ServiceKind then GetBase else Deadline;
            Next(cfg, w, Act(0, o)) == if on.Idle? then Resting(w) else With(w, wk.(pc := on))
  {
    DecisionResumes(cfg, w.history, wk, o);
    assert With(w, wk) == w;
    if Marking(cfg.kind) {
      ReadEnds(cfg, w, wk, o);
    } else {
      ReadTaken(cfg, w, wk, o, Resume(cfg, w.history, wk, o));
    }
  }

  /** How many calls a status decision takes. */
  function DecisionCalls(cfg: Config, wk: Worker, o: Outcome): nat
    requires wk.pc.Observe?
  {
    if Updates(wk.inst.status, VerdictOn(cfg, wk, o)) then 3 else 1
  }

  lemma {:induction false} ToldIsLive(w: World, w': World, s: Status)
    requires Live(w) && Told(w, w', s) && s.start.Some?
    ensures Live(w') && Current(w').status == s
  {
  }

  /** The verdict was stored and pushed if it was reported as an update, and else nothing happened. */
  ghost predicate Settles(w: World, w': World, s: Status, v: Verdict, t: Status)
    requires w.history != []
  {
    && Live(w') && Current(w').status == t
    && if Updates(s, v) then Told(w, w', t) else w' == w.(workers := w'.workers)
  }

  /** Where a pass goes from its status decision. */
  ghost predicate GoesOn(cfg: Config, w: World, wk: Worker) {
    if Marking(cfg.kind) then w.workers == map[]
    else
      && w.history != []
      && AtWork(w, wk.(pc := if cfg.kind == ServiceKind then GetBase else Deadline, inst := Latest(w)))
  }

  lemma {:induction false} ToldDecision(cfg: Config, w: World, wk: Worker, o: Outcome, o1: Outcome, o2: Outcome)
    requires AtWork(w, wk) && wk.pc.Observe? && !o1.fails && !o2.fails
    requires !VerdictOn(cfg, wk, o).Fault? && Updates(wk.inst.status, VerdictOn(cfg, wk, o))
    ensures var w' := Next(cfg, Next(cfg, Next(cfg, w, Act(0, o)), Act(0, o1)), Act(0, o2));
            var v, t := VerdictOn(cfg, wk, o), DecisionTime(cfg.kind, o.clock);
            Settles(w, w', wk.inst.status, v, Apply(wk.inst.status, v, o.clock, t)) && GoesOn(cfg, w', wk)
  {
    DecisionIsTold(cfg, w, wk, o, o1, o2);
    var w' := Next(cfg, Next(cfg, Next(cfg, w, Act(0, o)), Act(0, o1)), Act(0, o2));
    var v := VerdictOn(cfg, wk, o);
    ToldIsLive(w, w', Apply(wk.inst.status, v, o.clock, DecisionTime(cfg.kind, o.clock)));
  }

  lemma {:induction false} QuietDecisionGoesOn(cfg: Config, w: World, wk: Worker, o: Outcome)
    requires AtWork(w, wk) && wk.pc.Observe?
    requires !VerdictOn(cfg, wk, o).Fault? && !Updates(wk.inst.status, VerdictOn(cfg, wk, o))
    ensures var w', v, t := Next(cfg, w, Act(0, o)), VerdictOn(cfg, wk, o), DecisionTime(cfg.kind, o.clock);
            Settles(w, w', wk.inst.status, v, Apply(wk.inst.status, v, o.clock, t)) && GoesOn(cfg, w', wk)
  {
    DecisionIsQuiet(cfg, w, wk, o);
    QuietDecision(wk.inst.status, VerdictOn(cfg, wk, o), o.clock, DecisionTime(cfg.kind, o.clock));
  }

  /**
   A status decision without errors stores its verdict and pushes it exactly when it is reported as an update; then
   a Job or KfJob pass is over, a Service pass looks for the base service, and a cluster pass checks the deadline.
   */
  lemma {:induction false} DecisionTaken(cfg: Config, w: World, wk: Worker, outs: seq<Outcome>)
    requires AtWork(w, wk) && wk.pc.Observe? && Fine(outs) && outs != []
    requires !VerdictOn(cfg, wk, outs[0]).Fault? && |outs| == DecisionCalls(cfg, wk, outs[0])
    ensures var w', v, clock := Acts(cfg, w, outs), VerdictOn(cfg, wk, outs[0]), outs[0].clock;
            && Settles(w, w', wk.inst.status, v, Apply(wk.inst.status, v, clock, DecisionTime(cfg.kind, clock)))
            && GoesOn(cfg, w', wk)
  {
    if Updates(wk.inst.status, VerdictOn(cfg, wk, outs[0])) {
      ActsThree(cfg, w, outs);
      ToldDecision(cfg, w, wk, outs[0], outs[1], outs[2]);
    } else {
      ActsOne(cfg, w, outs);
      QuietDecisionGoesOn(cfg, w, wk, outs[0]);
    }
  }

  // ---- the base service ----

  /** A Service pass then creates the base service exactly when there is none, and comes to the deadline. */
  lemma {:induction false} BaseIsThere(cfg: Config, w: World, wk: Worker, outs: seq<Outcome>)
    requires AtWork(w, wk) && wk.pc.GetBase? && Fine(outs) && |outs| == 2
    ensures Acts(cfg, w, outs) ==
            With(w.(bases := w.bases + if outs[0].found then 0 else 1), wk.(pc := Deadline))
  {
    ActsTwo(cfg, w, outs);
    assert With(w, wk) == w && outs[0] in outs && outs[1] in outs;
    var found := wk.(pc := if outs[0].found then UpdateBase else CreateBase);
    assert Resume(cfg, w.history, wk, outs[0]) == found;
    ReadTaken(cfg, w, wk, outs[0], found);
    if outs[0].found {
      UpdateTaken(cfg, w, found, outs[1]);
    } else {
      BaseTaken(cfg, w, found, outs[1]);
    }
  }

  lemma {:induction false} UpdateTaken(cfg: Config, w: World, wk: Worker, o: Outcome)
    requires w.history != [] && wk.pc.UpdateBase? && !o.fails
    ensures Next(cfg, With(w, wk), Act(0, o)) == With(w, wk.(pc := Deadline))
  {
    assert Resume(cfg, w.history, wk, o) == wk.(pc := Deadline);
    ReadTaken(cfg, w, wk, o, wk.(pc := Deadline));
  }

  // ---- the end of the pass ----

  /** A delete was issued for this reason and took effect; the worker is gone. */
  ghost predicate DeleteIssued(w: World, w': World, d: Deleted)
    requires w.history != []
  {
    && w'.workers == map[] && w'.deletes == w.deletes + [d]
    && w.history <= w'.history && (w'.gone || Current(w').deleting) && Current(w').status == Current(w).status
    && w'.creates == w.creates && w'.bases == w.bases && w'.pushed == w.pushed
  }

  /** A status was stored and pushed, and then a delete was issued and took effect; the worker is gone. */
  ghost predicate ToldAndDeleted(w: World, w': World, s: Status, reason: Reason)
    requires w.history != []
  {
    && w'.workers == map[] && w'.deletes == w.deletes + [Deleted(|w.history|, reason)]
    && w.history + [Current(w).(status := s, cause := StatusWrite)] <= w'.history
    && (w'.gone || Current(w').deleting) && Current(w').status == s
    && w'.pushed == LastOf(s.conditions) && w'.creates == w.creates && w'.bases == w.bases
  }

  lemma {:induction false} TellThenDelete(w: World, told: World, w': World, s: Status, reason: Reason)
    requires Live(w) && Told(w, told, s) && told.history != [] && DeleteIssued(told, w', Deleted(|w.history|, reason))
    ensures ToldAndDeleted(w, w', s, reason)
  {
  }

  lemma {:induction false} DeleteDone(cfg: Config, w: World, wk: Worker, o: Outcome)
    requires Live(w) && wk.pc.Delete? && wk.pc.next == END && !o.fails
    ensures DeleteIssued(w, Next(cfg, With(w, wk), Act(0, o)), Deleted(wk.inst.version, wk.pc.reason))
  {
    assert map[0 := wk] - {0} == map[];
  }

  /** The check that decides between the deadline and what follows it. */
  lemma {:induction false} CheckTaken(cfg: Config, w: World, wk: Worker, o: Outcome)
    requires w.history != [] && wk.pc.Deadline? && DeadlineChecked(cfg, wk, o).pc != END
    ensures Next(cfg, With(w, wk), Act(0, o)) == With(w, DeadlineChecked(cfg, wk, o))
  {
    assert Resume(cfg, w.history, wk, o) == DeadlineChecked(cfg, wk, o);
    assert !DeadlineChecked(cfg, wk, o).pc.Idle?;
    ReadTaken(cfg, w, wk, o, DeadlineChecked(cfg, wk, o));
  }

  lemma {:induction false} CheckEnds(cfg: Config, w: World, wk: Worker, o: Outcome)
    requires w.history != [] && wk.pc.Deadline? && DeadlineChecked(cfg, wk, o).pc == END
    ensures Next(cfg, With(w, wk), Act(0, o)) == Resting(w)
  {
    assert Resume(cfg, w.history, wk, o) == DeadlineChecked(cfg, wk, o);
    ReadEnds(cfg, w, wk, o);
  }

  lemma {:induction false} ExitTaken(cfg: Config, w: World, wk: Worker, o: Outcome)
    requires w.history != [] && wk.pc.ExitCheck? && !o.fails
    ensures Next(cfg, With(w, wk), Act(0, o)) == With(w, ExitChecked(cfg, wk, o))
  {
    assert Resume(cfg, w.history, wk, o) == ExitChecked(cfg, wk, o);
    ReadTaken(cfg, w, wk, o, ExitChecked(cfg, wk, o));
  }

  lemma {:induction false} CullTaken(cfg: Config, w: World, wk: Worker, o: Outcome)
    requires w.history != [] && wk.pc.CullCheck?
    ensures var next := ResumeService(cfg, wk, o);
            Next(cfg, With(w, wk), Act(0, o)) == if next.pc == END then Resting(w) else With(w, next)
  {
    var next := ResumeService(cfg, wk, o);
    assert Resume(cfg, w.history, wk, o) == next;
    if next.pc == END {
      ReadEnds(cfg, w, wk, o);
    } else {
      ReadTaken(cfg, w, wk, o, next);
    }
  }

  /** How the pass ends: as FinishOf says, with the status stored and pushed or the delete issued. */
  ghost predicate Ends(cfg: Config, w: World, w': World, wk: Worker, f: Finish, outs: seq<Outcome>)
    requires w.history != [] && |outs| == 4
  {
    var s := wk.inst.status;
    match f
    case Finished => w' == Resting(w)
    case Open(_) => w' == Resting(w)
    case DeadlineStop => ToldAndDeleted(w, w', Record(s, DeadlineEntry(), outs[0].clock, None), Overdue)
    case ExitEnd =>
      var v := ExitVerdict(outs[1].seen.pods, cfg.limits.replicas, cfg.limits.backoff, cfg.exitFormat);
      Told(w, w', Apply(s, v, outs[1].clock, outs[1].clock.before)) && w'.workers == map[]
    case Culled(_) => DeleteIssued(w, w', Deleted(|w.history| - 1, Inactive))
  }

  function FinishAt(cfg: Config, wk: Worker, outs: seq<Outcome>): Finish
    requires |outs| == 4
  {
    var s := wk.inst.status;
    FinishOf(cfg.limits.deadline, s.start, Done(s.conditions), EndingOf(cfg, wk, outs[1], outs[2]),
             outs[0].clock.before, outs[2].clock.before)
  }

  /** Storing and pushing a stop and deleting the operation, in three calls. */
  lemma {:induction false} StopAndDelete(cfg: Config, w: World, wk: Worker, o1: Outcome, o2: Outcome, o3: Outcome)
    requires Live(w) && wk.pc == Write(Push(Delete(END, Overdue)), END) && wk.inst.version == |w.history| - 1
    requires wk.inst.status.conditions != [] && wk.inst.status.start.Some? && !o1.fails && !o2.fails && !o3.fails
    ensures var w2 := Next(cfg, Next(cfg, With(w, wk), Act(0, o1)), Act(0, o2));
            ToldAndDeleted(w, Next(cfg, w2, Act(0, o3)), wk.inst.status, Overdue)
  {
    var after := Delete(END, Overdue);
    WriteAndPush(cfg, w, wk, after, o1, o2);
    var told := Next(cfg, Next(cfg, With(w, wk), Act(0, o1)), Act(0, o2));
    var deleting := wk.(pc := after, inst := Latest(told));
    ToldIsLive(w, told, wk.inst.status);
    assert With(told, deleting) == told;
    DeleteDone(cfg, told, deleting, o3);
    TellThenDelete(w, told, Next(cfg, told, Act(0, o3)), wk.inst.status, Overdue);
  }

  lemma {:induction false} StopEnds(cfg: Config, w: World, wk: Worker, outs: seq<Outcome>)
    requires AtWork(w, wk) && wk.pc.Deadline? && Fine(outs) && |outs| == 4 && FinishAt(cfg, wk, outs).DeadlineStop?
    ensures Ends(cfg, w, Acts(cfg, w, outs), wk, DeadlineStop, outs)
  {
    ActsFour(cfg, w, outs);
    assert With(w, wk) == w && outs[1] in outs && outs[2] in outs && outs[3] in outs;
    DeadlineIsRecorded(cfg, w, wk, outs[0]);
    LoggedIsNotEmpty(wk.inst.status.conditions, DeadlineEntry(), outs[0].clock);
    var recorded := Recording(wk, DeadlineEntry(), outs[0].clock, None, Push(Delete(END, Overdue)), END);
    StopAndDelete(cfg, w, recorded, outs[1], outs[2], outs[3]);
  }

  lemma {:induction false} EarlyEnds(cfg: Config, w: World, wk: Worker, outs: seq<Outcome>)
    requires AtWork(w, wk) && wk.pc.Deadline? && |outs| == 4 && DeadlineChecked(cfg, wk, outs[0]).pc == END
    ensures Acts(cfg, w, outs) == Resting(w)
  {
    ActsFour(cfg, w, outs);
    assert With(w, wk) == w;
    CheckEnds(cfg, w, wk, outs[0]);
    IdleStays(cfg, Resting(w), outs[1]);
    IdleStays(cfg, Resting(w), outs[2]);
    IdleStays(cfg, Resting(w), outs[3]);
  }

  lemma {:induction false} ExitEnds(cfg: Config, w: World, wk: Worker, outs: seq<Outcome>)
    requires AtWork(w, wk) && wk.pc.Deadline? && Fine(outs) && |outs| == 4 && cfg.kind == ServiceKind
    requires FinishAt(cfg, wk, outs).ExitEnd?
    ensures Ends(cfg, w, Acts(cfg, w, outs), wk, ExitEnd, outs)
  {
    ActsFour(cfg, w, outs);
    assert With(w, wk) == w && outs[1] in outs && outs[2] in outs && outs[3] in outs;
    CheckTaken(cfg, w, wk, outs[0]);
    var checking := wk.(pc := ExitCheck);
    ExitTaken(cfg, w, checking, outs[1]);
    var v := ExitVerdict(outs[1].seen.pods, cfg.limits.replicas, cfg.limits.backoff, cfg.exitFormat);
    ExitVerdictKinds(outs[1].seen.pods, cfg.limits, cfg.exitFormat);
    var recorded := Recording(checking, v.entry, outs[1].clock, Some(outs[1].clock.before), Push(END), END);
    LoggedIsNotEmpty(wk.inst.status.conditions, v.entry, outs[1].clock);
    WriteAndPush(cfg, w, recorded, END, outs[2], outs[3]);
  }

  /** Neither deadline nor exits: two calls take the pass to the culling check. */
  lemma {:induction false} ComesToCulling(cfg: Config, w: World, wk: Worker, o1: Outcome, o2: Outcome)
    requires AtWork(w, wk) && wk.pc.Deadline? && cfg.kind == ServiceKind && !o2.fails
    requires DeadlineChecked(cfg, wk, o1) == wk.(pc := ExitCheck)
    requires ExitChecked(cfg, wk.(pc := ExitCheck), o2) == wk.(pc := CullCheck)
    ensures Next(cfg, Next(cfg, w, Act(0, o1)), Act(0, o2)) == With(w, wk.(pc := CullCheck))
  {
    assert With(w, wk) == w;
    CheckTaken(cfg, w, wk, o1);
    ExitTaken(cfg, w, wk.(pc := ExitCheck), o2);
  }

  /** The three checks of the pass come to this. */
  ghost predicate ChecksComeTo(cfg: Config, wk: Worker, outs: seq<Outcome>, last: Pc)
    requires wk.pc.Deadline? && |outs| == 4
  {
    && DeadlineChecked(cfg, wk, outs[0]) == wk.(pc := ExitCheck)
    && ExitChecked(cfg, wk.(pc := ExitCheck), outs[1]) == wk.(pc := CullCheck)
    && ResumeService(cfg, wk.(pc := CullCheck), outs[2]) == wk.(pc := last)
  }

  /** What the three checks of such a pass decide. */
  lemma {:induction false} ChecksPass(cfg: Config, wk: Worker, outs: seq<Outcome>)
    requires wk.pc.Deadline? && |outs| == 4 && cfg.kind == ServiceKind
    requires FinishAt(cfg, wk, outs).Culled? || FinishAt(cfg, wk, outs).Open?
    ensures ChecksComeTo(cfg, wk, outs, if FinishAt(cfg, wk, outs).Culled? then Delete(END, Inactive) else END)
  {
  }

  /** Three calls take such a pass to its end, or to the delete. */
  lemma {:induction false} ChecksTaken(cfg: Config, w: World, wk: Worker, outs: seq<Outcome>, last: Pc)
    requires AtWork(w, wk) && wk.pc.Deadline? && Fine(outs) && |outs| == 4 && cfg.kind == ServiceKind
    requires ChecksComeTo(cfg, wk, outs, last)
    ensures Next(cfg, Next(cfg, Next(cfg, w, Act(0, outs[0])), Act(0, outs[1])), Act(0, outs[2])) ==
            if last == END then Resting(w) else With(w, wk.(pc := last))
  {
    assert outs[1] in outs;
    ComesToCulling(cfg, w, wk, outs[0], outs[1]);
    CullTaken(cfg, w, wk.(pc := CullCheck), outs[2]);
  }

  lemma {:induction false} CullEnds(cfg: Config, w: World, wk: Worker, outs: seq<Outcome>)
    requires AtWork(w, wk) && wk.pc.Deadline? && Fine(outs) && |outs| == 4 && cfg.kind == ServiceKind
    requires ChecksComeTo(cfg, wk, outs, Delete(END, Inactive))
    ensures DeleteIssued(w, Acts(cfg, w, outs), Deleted(|w.history| - 1, Inactive))
  {
    var deleting := wk.(pc := Delete(END, Inactive));
    assert Deleted(deleting.inst.version, deleting.pc.reason) == Deleted(|w.history| - 1, Inactive);
    ChecksTaken(cfg, w, wk, outs, Delete(END, Inactive));
    DeleteIsLast(cfg, w, deleting, outs);
  }

  /** Three calls that lead to a delete, and the delete. */
  lemma {:induction false} DeleteIsLast(cfg: Config, w: World, wk: Worker, outs: seq<Outcome>)
    requires Live(w) && Fine(outs) && |outs| == 4 && wk.pc.Delete? && wk.pc.next == END
    requires Next(cfg, Next(cfg, Next(cfg, w, Act(0, outs[0])), Act(0, outs[1])), Act(0, outs[2])) == With(w, wk)
    ensures DeleteIssued(w, Acts(cfg, w, outs), Deleted(wk.inst.version, wk.pc.reason))
  {
    ActsEnd(cfg, w, outs, With(w, wk));
    assert outs[3] in outs;
    DeleteDone(cfg, w, wk, outs[3]);
  }

  lemma {:induction false} OpenEnds(cfg: Config, w: World, wk: Worker, outs: seq<Outcome>)
    requires AtWork(w, wk) && wk.pc.Deadline? && Fine(outs) && |outs| == 4 && cfg.kind == ServiceKind
    requires ChecksComeTo(cfg, wk, outs, END)
    ensures Acts(cfg, w, outs) == Resting(w)
  {
    ActsEnd(cfg, w, outs, Resting(w)) by {
      ChecksTaken(cfg, w, wk, outs, END);
    }
    IdleStays(cfg, Resting(w), outs[3]);
  }

  /** The last of four calls, once the world after three is known. */
  lemma {:induction false} ActsEnd(cfg: Config, w: World, outs: seq<Outcome>, w3: World)
    requires w.history != [] && |outs| == 4 && w3.history != []
    requires Next(cfg, Next(cfg, Next(cfg, w, Act(0, outs[0])), Act(0, outs[1])), Act(0, outs[2])) == w3
    ensures Acts(cfg, w, outs) == Next(cfg, w3, Act(0, outs[3]))
  {
    ActsFour(cfg, w, outs);
  }

  /** Four error-free calls from the deadline check on end the pass of a Service or cluster as FinishOf says. */
  lemma {:induction false} PassEnds(cfg: Config, w: World, wk: Worker, outs: seq<Outcome>)
    requires AtWork(w, wk) && wk.pc.Deadline? && !Marking(cfg.kind) && Fine(outs) && |outs| == 4
    ensures Ends(cfg, w, Acts(cfg, w, outs), wk, FinishAt(cfg, wk, outs), outs)
  {
    match FinishAt(cfg, wk, outs)
    case Finished => EarlyEnds(cfg, w, wk, outs);
    case DeadlineStop => StopEnds(cfg, w, wk, outs);
    case ExitEnd => ExitEnds(cfg, w, wk, outs);
    case Culled(_) =>
      ChecksPass(cfg, wk, outs);
      CullEnds(cfg, w, wk, outs);
    case Open(_) =>
      if cfg.kind == ServiceKind {
        ChecksPass(cfg, wk, outs);
        OpenEnds(cfg, w, wk, outs);
      } else {
        EarlyEnds(cfg, w, wk, outs);
      }
  }

  // ---- from the status decision to the end ----

  /** The worker at the deadline check, with the latest revision. */
  function AtDeadline(w: World, wk: Worker): Worker
    requires w.history != []
  {
    wk.(pc := Deadline, inst := Latest(w))
  }

  /** The worker is at the deadline check, and of the rest only base services may have been added. */
  ghost predicate ReadyForDeadline(w: World, w': World, wk: Worker, bases: nat) {
    && w'.history == w.history && w'.history != [] && AtWork(w', AtDeadline(w', wk))
    && w' == w.(workers := w'.workers, bases := bases)
  }

  lemma {:induction false} ReadyWith(w: World, wk: Worker, bases: nat)
    requires Live(w)
    ensures ReadyForDeadline(w, With(w.(bases := bases), wk.(pc := Deadline, inst := Latest(w))), wk, bases)
  {
  }

  lemma {:induction false} ServiceComesToDeadline(cfg: Config, w: World, wk: Worker, outs: seq<Outcome>)
    requires Live(w) && GoesOn(cfg, w, wk) && cfg.kind == ServiceKind && Fine(outs) && |outs| == 2
    ensures ReadyForDeadline(w, Acts(cfg, w, outs), wk, w.bases + if outs[0].found then 0 else 1)
  {
    var bases := w.bases + if outs[0].found then 0 else 1;
    var at := wk.(pc := GetBase, inst := Latest(w));
    assert Acts(cfg, w, outs) == With(w.(bases := bases), at.(pc := Deadline)) by {
      BaseIsThere(cfg, w, at, outs);
    }
    ReadyWith(w, wk, bases);
  }

  /** Two calls for a Service, none for a cluster: then the deadline is checked, and the base service is there. */
  lemma {:induction false} ComesToDeadline(cfg: Config, w: World, wk: Worker, outs: seq<Outcome>)
    requires Live(w) && GoesOn(cfg, w, wk) && !Marking(cfg.kind)
    requires Fine(outs) && |outs| == if cfg.kind == ServiceKind then 2 else 0
    ensures ReadyForDeadline(w, Acts(cfg, w, outs), wk,
                             w.bases + if cfg.kind == ServiceKind && !outs[0].found then 1 else 0)
  {
    if cfg.kind == ServiceKind {
      ServiceComesToDeadline(cfg, w, wk, outs);
    }
  }

  /** What the middle of a pass, from its status decision to the deadline check, has done. */
  ghost predicate ThroughMiddle(
      cfg: Config, w: World, w1: World, w2: World, wk: Worker, decided: Outcome, base: seq<Outcome>)
    requires w.history != [] && wk.pc.Observe? && |base| == if cfg.kind == ServiceKind then 2 else 0
  {
    var v := VerdictOn(cfg, wk, decided);
    var s := Apply(wk.inst.status, v, decided.clock, DecisionTime(cfg.kind, decided.clock));
    && Settles(w, w1, wk.inst.status, v, s) && w1.bases == w.bases
    && ReadyForDeadline(w1, w2, wk, w1.bases + if cfg.kind == ServiceKind && !base[0].found then 1 else 0)
    && w2.history != [] && AtWork(w2, AtDeadline(w2, wk)) && AtDeadline(w2, wk).inst.status == s
  }

  /**
   The middle of an error-free pass of a Service or cluster: the verdict is stored and pushed if it is an update,
   and the base service of a Service is created exactly when there is none; then the deadline is checked.
   */
  lemma {:induction false} PassToDeadline(cfg: Config, w: World, wk: Worker, decision: seq<Outcome>, base: seq<Outcome>)
    requires AtWork(w, wk) && wk.pc.Observe? && !Marking(cfg.kind) && Fine(decision) && Fine(base)
    requires decision != [] && |decision| == DecisionCalls(cfg, wk, decision[0])
    requires !VerdictOn(cfg, wk, decision[0]).Fault? && |base| == (if cfg.kind == ServiceKind then 2 else 0)
    ensures var w1 := Acts(cfg, w, decision);
            ThroughMiddle(cfg, w, w1, Acts(cfg, w1, base), wk, decision[0], base)
  {
    var v, clock := VerdictOn(cfg, wk, decision[0]), decision[0].clock;
    var s := Apply(wk.inst.status, v, clock, DecisionTime(cfg.kind, clock));
    var w1 := Acts(cfg, w, decision);
    assert Settles(w, w1, wk.inst.status, v, s) && GoesOn(cfg, w1, wk) by {
      DecisionTaken(cfg, w, wk, decision);
    }
    var w2 := Acts(cfg, w1, base);
    var bases := w1.bases + if cfg.kind == ServiceKind && !base[0].found then 1 else 0;
    assert ReadyForDeadline(w1, w2, wk, bases) by {
      ComesToDeadline(cfg, w1, wk, base);
    }
    SettledAndReady(w, w1, w2, wk, v, s, bases);
  }

  /** And then the pass ends as FinishOf says for the status decided on. */
  lemma {:induction false} PassFromDecision(
      cfg: Config, w: World, wk: Worker, decision: seq<Outcome>, base: seq<Outcome>, end: seq<Outcome>)
    requires AtWork(w, wk) && wk.pc.Observe? && !Marking(cfg.kind) && Fine(decision) && Fine(base) && Fine(end)
    requires decision != [] && |decision| == DecisionCalls(cfg, wk, decision[0])
    requires !VerdictOn(cfg, wk, decision[0]).Fault?
    requires |base| == (if cfg.kind == ServiceKind then 2 else 0) && |end| == 4
    ensures var w1 := Acts(cfg, w, decision);
            var w2 := Acts(cfg, w1, base);
            && ThroughMiddle(cfg, w, w1, w2, wk, decision[0], base)
            && Ends(cfg, w2, Acts(cfg, w2, end), AtDeadline(w2, wk), FinishAt(cfg, AtDeadline(w2, wk), end), end)
  {
    var w2 := Acts(cfg, Acts(cfg, w, decision), base);
    PassToDeadline(cfg, w, wk, decision, base);
    PassEnds(cfg, w2, AtDeadline(w2, wk), end);
  }

  lemma {:induction false} SettledAndReady(
      w: World, w1: World, w2: World, wk: Worker, v: Verdict, s: Status, bases: nat)
    requires w.history != [] && Settles(w, w1, wk.inst.status, v, s) && ReadyForDeadline(w1, w2, wk, bases)
    ensures w1.bases == w.bases && AtWork(w2, AtDeadline(w2, wk)) && AtDeadline(w2, wk).inst.status == s
  {
  }

  /**
   So the deadline holds of the passes themselves: an error-free pass over a started operation that its decision
   does not end stores the stop and deletes the operation exactly when the check finds the deadline passed.
   */
  lemma {:induction false} PassMeetsDeadline(
      cfg: Config, w: World, wk: Worker, decision: seq<Outcome>, base: seq<Outcome>, end: seq<Outcome>)
    requires AtWork(w, wk) && wk.pc.Observe? && !Marking(cfg.kind) && Fine(decision) && Fine(base) && Fine(end)
    requires decision != [] && |decision| == DecisionCalls(cfg, wk, decision[0])
    requires !VerdictOn(cfg, wk, decision[0]).Fault?
    requires |base| == (if cfg.kind == ServiceKind then 2 else 0) && |end| == 4
    requires cfg.limits.deadline.Some? && -LONGEST <= cfg.limits.deadline.value <= LONGEST
    ensures var w2 := Acts(cfg, Acts(cfg, w, decision), base);
            var s, due := Current(w2).status, wk.inst.status.start.value + SECOND * cfg.limits.deadline.value;
            var w3, at := Acts(cfg, w2, end), AtDeadline(w2, wk);
            && (!Done(s.conditions) && end[0].clock.before >= due ==>
                ToldAndDeleted(w2, w3, Record(s, DeadlineEntry(), end[0].clock, None), Overdue))
            && (FinishAt(cfg, at, end).DeadlineStop? <==> !Done(s.conditions) && end[0].clock.before >= due)
  {
    PassFromDecision(cfg, w, wk, decision, base, end);
    var w2 := Acts(cfg, Acts(cfg, w, decision), base);
    OpenPassWakes(cfg.limits.deadline.value, wk.inst.status.start.value,
                  EndingOf(cfg, AtDeadline(w2, wk), end[1], end[2]), end[0].clock.before, end[2].clock.before);
  }

  // ---- what fails ----

  /** Calls whose failure is returned as it is. */
  predicate ReturnsError(pc: Pc) {
    || pc.GetChild? || pc.UpdateChild? || pc.RefetchCreated? || pc.Refetch?
    || pc.GetBase? || pc.UpdateBase? || pc.ExitCheck?
  }

  /** A read, an update or a reread that fails ends the pass; nothing is stored, told or created. */
  lemma {:induction false} FailureEnds(cfg: Config, w: World, wk: Worker, o: Outcome)
    requires w.history != [] && ReturnsError(wk.pc) && o.fails
    ensures Next(cfg, With(w, wk), Act(0, o)) == Resting(w)
  {
    assert Resume(cfg, w.history, wk, o) == wk.(pc := END);
    ReadEnds(cfg, w, wk, o);
  }

  /** So does a child status that cannot be converted. */
  lemma {:induction false} FaultEnds(cfg: Config, w: World, wk: Worker, o: Outcome)
    requires AtWork(w, wk) && wk.pc.Observe? && VerdictOn(cfg, wk, o).Fault?
    ensures Next(cfg, w, Act(0, o)) == Resting(w)
  {
    assert With(w, wk) == w;
    assert Resume(cfg, w.history, wk, o) == Settled(cfg, wk, Fault, o);
    ReadEnds(cfg, w, wk, o);
  }

  /** A write that fails or is refused ends the pass, except that a Job still pushes its Starting. */
  lemma {:induction false} FailedWriteEnds(cfg: Config, w: World, wk: Worker, o: Outcome)
    requires WorldOk(cfg, w) && w.workers == map[0 := wk] && Writes(wk.pc) && !Accepted(w, wk, o)
    ensures var w' := Next(cfg, w, Act(0, o));
            || w' == Resting(w)
            || (cfg.kind == JobKind && wk.pc.Write? && w' == With(w, wk.(pc := Push(END))))
  {
    assert 0 in w.workers && WorkerOk(cfg, w.history, wk);
    WhereFailedWritesGo(cfg, w.history, wk);
    RefusedWrite(cfg, w, wk, o);
    assert With(w, wk) == w;
  }

  lemma {:induction false} WhereFailedWritesGo(cfg: Config, h: seq<Revision>, wk: Worker)
    requires WorkerOk(cfg, h, wk) && Writes(wk.pc)
    ensures AfterFailedWrite(wk.pc) == END || (cfg.kind == JobKind && wk.pc.Write? && wk.pc.onFail == Push(END))
  {
  }

  lemma {:induction false} RefusedWrite(cfg: Config, w: World, wk: Worker, o: Outcome)
    requires w.history != [] && Writes(wk.pc) && !Accepted(With(w, wk), wk, o)
    requires var pc := AfterFailedWrite(wk.pc); !pc.Idle? || pc == END
    ensures var pc := AfterFailedWrite(wk.pc);
            Next(cfg, With(w, wk), Act(0, o)) == if pc.Idle? then Resting(w) else With(w, wk.(pc := pc))
  {
    assert map[0 := wk] - {0} == map[];
    assert Next(cfg, With(w, wk), Act(0, o)) == StepWrite(cfg, With(w, wk), 0, wk, o);
  }

  /** A delete that fails ends the pass with the operation as it was; the attempt is on record. */
  lemma {:induction false} FailedDeleteEnds(cfg: Config, w: World, wk: Worker, o: Outcome)
    requires w.history != [] && wk.pc.Delete? && o.fails
    ensures Next(cfg, With(w, wk), Act(0, o)) == Resting(Issued(w, wk))
  {
    assert map[0 := wk] - {0} == map[];
  }

  /** Logs that cannot be collected keep their finalizer: a deleting operation's pass ends, a done one's goes on. */
  lemma {:induction false} FailedCollectGoesOn(cfg: Config, w: World, wk: Worker, o: Outcome)
    requires w.history != [] && wk.pc.Collect? && o.fails
    ensures Next(cfg, With(w, wk), Act(0, o)) == if wk.inst.deleting then Resting(w) else With(w, wk.(pc := Ttl))
  {
    if wk.inst.deleting {
      ReadEnds(cfg, w, wk, o);
    } else {
      ReadTaken(cfg, w, wk, o, wk.(pc := Ttl));
    }
  }

  /** A base service that cannot be created is reported as a warning with the error, if that is news. */
  lemma {:induction false} BaseFailureWarns(
      cfg: Config, w: World, wk: Worker, failed: Outcome, o1: Outcome, o2: Outcome)
    requires AtWork(w, wk) && wk.pc.CreateBase? && failed.fails && !o1.fails && !o2.fails
    ensures var w' := Next(cfg, Next(cfg, Next(cfg, w, Act(0, failed)), Act(0, o1)), Act(0, o2));
            var e, tried := WarningEntry("OperatorCreateService", failed.error), w.(bases := w.bases + 1);
            && w'.workers == map[]
            && if LogChanges(wk.inst.status.conditions, e)
               then Told(tried, w', Record(wk.inst.status, e, failed.clock, None)) else w' == Resting(tried)
  {
    var e, tried := WarningEntry("OperatorCreateService", failed.error), w.(bases := w.bases + 1);
    assert With(w, wk) == w;
    FailedBase(cfg, w, wk, failed, e);
    if LogChanges(wk.inst.status.conditions, e) {
      LoggedIsNotEmpty(wk.inst.status.conditions, e, failed.clock);
      WriteAndPush(cfg, tried, Recording(wk, e, failed.clock, None, Push(END), END), END, o1, o2);
    } else {
      IdleStays(cfg, Resting(tried), o1);
      IdleStays(cfg, Resting(tried), o2);
    }
  }

  lemma {:induction false} FailedBase(cfg: Config, w: World, wk: Worker, failed: Outcome, e: Entry)
    requires w.history != [] && wk.pc.CreateBase? && failed.fails
    requires e == WarningEntry("OperatorCreateService", failed.error)
    ensures var tried := w.(bases := w.bases + 1);
            Next(cfg, With(w, wk), Act(0, failed)) ==
            if LogChanges(wk.inst.status.conditions, e)
            then With(tried, Recording(wk, e, failed.clock, None, Push(END), END)) else Resting(tried)
  {
    var next := WarnAndEnd(wk, e, failed.clock);
    assert Resume(cfg, w.history, wk, failed) == next;
    BaseTried(cfg, w, wk, failed, next);
  }

  lemma {:induction false} BaseTried(cfg: Config, w: World, wk: Worker, o: Outcome, next: Worker)
    requires w.history != [] && wk.pc.CreateBase? && next == Resume(cfg, w.history, wk, o)
    requires !next.pc.Idle? || next.pc == END
    ensures var tried := w.(bases := w.bases + 1);
            Next(cfg, With(w, wk), Act(0, o)) == if next.pc.Idle? then Resting(tried) else With(tried, next)
  {
    assert map[0 := wk] - {0} == map[];
  }
}
