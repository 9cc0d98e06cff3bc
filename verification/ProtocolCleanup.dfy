/** The passes over an operation that is done or deleting: what they tell, which finalizers go, and when they delete. */
module ProtocolCleanup {
  import opened Prelude
  import opened Conditions
  import opened Timing
  import opened Protocol
  import opened ProtocolSafety
  import opened ProtocolRuns
  import opened ProtocolDeletion
  import opened ProtocolPasses

  // ---- a done operation ----

  /** How many calls the finalizers of a done operation take before its TTL is checked. */
  function FinalizerCalls(finalizers: set<Finalizer>): nat {
    if LogsFinalizer in finalizers then 2 else if StatusFinalizer in finalizers then 1 else 0
  }

  /** The worker is about to check the TTL, with nothing but one finalizer of ours changed since. */
  ghost predicate ReadyForTtl(w: World, w': World, wk: Worker)
    requires w.history != []
  {
    && AtWork(w', wk) && wk.pc.Ttl? && Current(w').status == Current(w).status
    && Current(w').finalizers == Reduced(Current(w).finalizers)
    && w'.deletes == w.deletes && w'.creates == w.creates && w'.pushed == w.pushed && w'.panicked == w.panicked
  }

  lemma {:induction false} LogsGo(cfg: Config, w: World, wk: Worker, o1: Outcome, o2: Outcome)
    requires AtWork(w, wk) && wk.pc.Collect? && LogsFinalizer in Current(w).finalizers && !o1.fails && !o2.fails
    ensures var w' := Next(cfg, Next(cfg, w, Act(0, o1)), Act(0, o2));
            w'.workers.Keys == {0} && ReadyForTtl(w, w', w'.workers[0])
  {
    assert With(w, wk) == w;
    var i := wk.inst.(finalizers := wk.inst.finalizers - {LogsFinalizer});
    var putting := wk.(pc := PutFinalizers(Ttl), collected := true, inst := i);
    assert Resume(cfg, w.history, wk, o1) == putting;
    ReadTaken(cfg, w, wk, o1, putting);
    FinalizersPut(cfg, w, putting, o2);
  }

  lemma {:induction false} FinalizersPut(cfg: Config, w: World, wk: Worker, o: Outcome)
    requires Live(w) && wk.pc == PutFinalizers(Ttl) && !o.fails
    requires wk.inst.(finalizers := Current(w).finalizers) == Latest(w)
    requires wk.inst.finalizers == Reduced(Current(w).finalizers)
    ensures var w' := Next(cfg, With(w, wk), Act(0, o));
            w'.workers.Keys == {0} && ReadyForTtl(w, w', w'.workers[0])
  {
    var w0 := With(w, wk);
    FinalizersStored(cfg, w0, wk, o);
    var w1 := Stored(w0, NewRevision(Current(w0), wk));
    assert Current(w1) == NewRevision(Current(w0), wk);
    var again := wk.(pc := Ttl, inst := Load(w1.history, |w.history|));
    assert Next(cfg, w0, Act(0, o)) == Park(w1, 0, again);
    assert w1.workers[0 := again] == map[0 := again];
  }

  lemma {:induction false} BeganDone(cfg: Config, w: World, clock: Clock)
    requires Live(w) && w.workers == map[] && Done(Current(w).status.conditions)
    ensures Began(cfg, w, clock) == With(w, Finalize(Worker(END, Latest(w), false)))
  {
    var wk := Worker(END, Latest(w), false);
    assert Start(cfg, Latest(w), clock) == Finalize(wk) && !Finalize(wk).pc.Idle?;
  }

  lemma {:induction false} LogsCase(cfg: Config, w: World, wk: Worker, outs: seq<Outcome>)
    requires Live(w) && wk.inst == Latest(w) && wk.pc.Collect? && LogsFinalizer in Current(w).finalizers
    requires Fine(outs) && |outs| == 2
    ensures var w' := Acts(cfg, With(w, wk), outs); w'.workers.Keys == {0} && ReadyForTtl(w, w', w'.workers[0])
  {
    assert outs[0] in outs && outs[1] in outs;
    LogsGo(cfg, With(w, wk), wk, outs[0], outs[1]);
    ActsTwo(cfg, With(w, wk), outs);
  }

  lemma {:induction false} StatusCase(cfg: Config, w: World, wk: Worker, outs: seq<Outcome>)
    requires Live(w) && wk.pc == PutFinalizers(Ttl) && wk.inst.(finalizers := Current(w).finalizers) == Latest(w)
    requires wk.inst.finalizers == Reduced(Current(w).finalizers) && Fine(outs) && |outs| == 1
    ensures var w' := Acts(cfg, With(w, wk), outs); w'.workers.Keys == {0} && ReadyForTtl(w, w', w'.workers[0])
  {
    assert outs[0] in outs;
    FinalizersPut(cfg, w, wk, outs[0]);
    ActsOne(cfg, With(w, wk), outs);
  }

  /** A successful pass over a done operation takes away the logs finalizer, or else the status finalizer, if any. */
  lemma {:induction false} DoneFinalizersGo(cfg: Config, w: World, clock: Clock, outs: seq<Outcome>)
    requires Live(w) && w.workers == map[] && Done(Current(w).status.conditions)
    requires Fine(outs) && |outs| == FinalizerCalls(Current(w).finalizers)
    ensures var w' := Acts(cfg, Began(cfg, w, clock), outs);
            w'.workers.Keys == {0} && ReadyForTtl(w, w', w'.workers[0])
  {
    var wk := Finalize(Worker(END, Latest(w), false));
    assert Began(cfg, w, clock) == With(w, wk) by {
      BeganDone(cfg, w, clock);
    }
    FinalizeCases(cfg, w, wk, outs);
  }

  lemma {:induction false} FinalizeCases(cfg: Config, w: World, wk: Worker, outs: seq<Outcome>)
    requires Live(w) && wk == Finalize(Worker(END, Latest(w), false))
    requires Fine(outs) && |outs| == FinalizerCalls(Current(w).finalizers)
    ensures var w' := Acts(cfg, With(w, wk), outs); w'.workers.Keys == {0} && ReadyForTtl(w, w', w'.workers[0])
  {
    if |outs| == 2 {
      LogsCase(cfg, w, wk, outs);
    } else if |outs| == 1 {
      StatusCase(cfg, w, wk, outs);
    } else {
      NoCase(w, wk);
      assert Acts(cfg, With(w, wk), outs) == With(w, wk);
    }
  }

  lemma {:induction false} NoCase(w: World, wk: Worker)
    requires Live(w) && wk == Finalize(Worker(END, Latest(w), false)) && FinalizerCalls(Current(w).finalizers) == 0
    ensures ReadyForTtl(w, With(w, wk), wk)
  {
    assert Reduced(Current(w).finalizers) == Current(w).finalizers;
  }

  lemma {:induction false} TtlTaken(cfg: Config, w: World, wk: Worker, o: Outcome)
    requires w.history != [] && wk.pc.Ttl?
    ensures Next(cfg, With(w, wk), Act(0, o)) ==
            match TtlDecide(cfg.ttl, wk.inst.status.completion, o.clock.before)
            case DeleteNow => With(w, wk.(pc := Delete(END, TtlAt(o.clock.before))))
            case Recheck(_) => Resting(w)
            case MissingCompletion => Resting(w.(panicked := true))
  {
    assert Resume(cfg, w.history, wk, o) == TtlChecked(cfg, wk, o);
    assert map[0 := wk] - {0} == map[];
  }

  /**
   The rest of that pass: a due TTL, or none at all, leads to a delete at once; a later one to nothing; and a TTL
   without a completion time to a panic.
   */
  lemma {:induction false} TtlIsServed(cfg: Config, w: World, wk: Worker, check: Outcome, granted: Outcome)
    requires AtWork(w, wk) && wk.pc.Ttl? && !granted.fails
    ensures var w' := Next(cfg, Next(cfg, w, Act(0, check)), Act(0, granted));
            var completion, now := wk.inst.status.completion, check.clock.before;
            if cfg.ttl.None? then DeleteIssued(w, w', Deleted(wk.inst.version, TtlAt(now)))
            else if completion.None? then w' == Resting(w.(panicked := true))
            else if now > completion.value + SECOND * cfg.ttl.value
            then DeleteIssued(w, w', Deleted(wk.inst.version, TtlAt(now)))
            else w' == Resting(w)
  {
    assert With(w, wk) == w;
    var s := wk.inst.status;
    if cfg.ttl.Some? && s.completion.Some? {
      TtlMeaning(cfg.ttl.value, s.completion.value, check.clock.before);
    }
    TtlTaken(cfg, w, wk, check);
    match TtlDecide(cfg.ttl, s.completion, check.clock.before)
    case DeleteNow => DeleteDone(cfg, w, wk.(pc := Delete(END, TtlAt(check.clock.before))), granted);
    case Recheck(_) => IdleStays(cfg, Resting(w), granted);
    case MissingCompletion => IdleStays(cfg, Resting(w.(panicked := true)), granted);
  }

  // ---- a deleting operation ----

  /** A pass that finds the operation deleting and not done first tells the control plane that it stopped. */
  lemma {:induction false} DeletingIsTold(cfg: Config, w: World, clock: Clock, o: Outcome)
    requires w.history != [] && Current(w).deleting && w.workers == map[] && Current(w).status.start.Some?
    requires !Done(Current(w).status.conditions) && !o.fails
    ensures var told := Next(cfg, Began(cfg, w, clock), Act(0, o)).pushed;
            && told.Some? && told.value.kind == Stopped && told.value.status == True
            && told.value.updated == o.clock.update && told.value.transitioned == o.clock.transition
            && told.value.reason == "OperatorFinalizer"
  {
    var wk := Worker(PushStopped, Latest(w), false);
    assert Start(cfg, Latest(w), clock) == wk;
    assert Began(cfg, w, clock) == With(w, wk);
  }

  /** One that is done already is not told about again. */
  lemma {:induction false} DoneIsNotTold(cfg: Config, w: World, clock: Clock, o: Outcome)
    requires w.history != [] && Current(w).deleting && w.workers == map[] && Current(w).status.start.Some?
    requires Done(Current(w).status.conditions)
    ensures Next(cfg, Began(cfg, w, clock), Act(0, o)).pushed == w.pushed
  {
    var wk := Finalize(Worker(END, Latest(w), false));
    assert Start(cfg, Latest(w), clock) == wk;
    assert wk.pc.Collect? || wk.pc.PutFinalizers? || wk.pc.Idle?;
  }
}
