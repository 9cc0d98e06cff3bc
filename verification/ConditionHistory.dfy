/**
 What the condition list means: it is the whole call history with only the last entry of each type
 kept, in order; and its times are those of the current streak.
 */
module ConditionHistory {
  import opened Prelude
  import opened Conditions

  datatype Call = Call(entry: Entry, clock: Clock)

  /** The list after a sequence of Log calls on an empty status. */
  function Replay(calls: seq<Call>): seq<Condition> {
    if calls == [] then []
    else
      var n := |calls| - 1;
      Logged(Replay(calls[..n]), calls[n].entry, calls[n].clock)
  }

  function Entries(conditions: seq<Condition>): seq<Entry> {
    seq(|conditions|, i requires 0 <= i < |conditions| => EntryOf(conditions[i]))
  }

  function Asked(calls: seq<Call>): seq<Entry> {
    seq(|calls|, i requires 0 <= i < |calls| => calls[i].entry)
  }

  /** A later entry has the type of the first. */
  predicate Replaced(history: seq<Entry>)
    requires history != []
  {
    exists j :: 1 <= j < |history| && history[j].kind == history[0].kind
  }

  /** The entries that no later entry of the same type replaces, in their original order. */
  function KeepLast(history: seq<Entry>): seq<Entry> {
    if history == [] then []
    else if Replaced(history) then KeepLast(history[1..])
    else [history[0]] + KeepLast(history[1..])
  }

  ghost predicate UniqueKinds(conditions: seq<Condition>) {
    forall i, j :: 0 <= i < j < |conditions| ==> conditions[i].kind != conditions[j].kind
  }

  ghost predicate AllTrue(conditions: seq<Condition>) {
    forall i :: 0 <= i < |conditions| ==> conditions[i].status == True
  }

  ghost predicate WellFormed(conditions: seq<Condition>) {
    UniqueKinds(conditions) && AllTrue(conditions)
  }

  // ---- removal ----

  lemma {:induction false} WithoutMembers(conditions: seq<Condition>, kind: ConditionType)
    ensures forall c :: c in Without(conditions, kind) <==> c in conditions && c.kind != kind
  {
    if conditions != [] {
      var n := |conditions| - 1;
      WithoutMembers(conditions[..n], kind);
      assert conditions == conditions[..n] + [conditions[n]];
    }
  }

  /** Removal keeps a list well formed and leaves exactly the conditions of other types. */
  lemma {:induction false} WithoutWellFormed(conditions: seq<Condition>, kind: ConditionType)
    requires WellFormed(conditions)
    ensures WellFormed(Without(conditions, kind))
    ensures forall c :: c in Without(conditions, kind) ==> c in conditions && c.kind != kind
  {
    WithoutMembers(conditions, kind);
    if conditions != [] {
      var n := |conditions| - 1;
      WithoutWellFormed(conditions[..n], kind);
      WithoutMembers(conditions[..n], kind);
    }
  }

  lemma {:induction false} WithoutAbsent(conditions: seq<Condition>, kind: ConditionType)
    requires forall i :: 0 <= i < |conditions| ==> conditions[i].kind != kind
    ensures Without(conditions, kind) == conditions
  {
    if conditions != [] {
      var n := |conditions| - 1;
      WithoutAbsent(conditions[..n], kind);
      assert conditions == conditions[..n] + [conditions[n]];
    }
  }

  /** Logging keeps types unique and every condition true, and the tail is what was logged. */
  lemma LoggedWellFormed(conditions: seq<Condition>, e: Entry, clock: Clock)
    requires WellFormed(conditions)
    ensures var l := Logged(conditions, e, clock);
            WellFormed(l) && l != [] && l[|l| - 1].kind == e.kind && EntryOf(l[|l| - 1]) == e
  {
    WithoutWellFormed(conditions, e.kind);
  }

  /** Logging one type leaves every condition of every other type as it was. */
  lemma LoggedMembers(conditions: seq<Condition>, e: Entry, clock: Clock)
    ensures forall c: Condition :: c.kind != e.kind ==> (c in Logged(conditions, e, clock) <==> c in conditions)
  {
    WithoutMembers(conditions, e.kind);
    var l := Logged(conditions, e, clock);
    if LogChanges(conditions, e) {
      assert forall c :: c in l <==> c in Without(conditions, e.kind) || c == l[|l| - 1];
    }
  }

  lemma {:induction false} HasWhenWellFormed(conditions: seq<Condition>, kind: ConditionType)
    requires AllTrue(conditions)
    ensures Has(conditions, kind) <==> exists c :: c in conditions && c.kind == kind
  {
    if conditions != [] {
      HasWhenWellFormed(conditions[1..], kind);
      assert conditions == [conditions[0]] + conditions[1..];
      if conditions[0].kind == kind {
        assert conditions[0] in conditions;
      }
    }
  }

  lemma HasLogged(conditions: seq<Condition>, e: Entry, clock: Clock, kind: ConditionType)
    requires WellFormed(conditions)
    ensures Has(Logged(conditions, e, clock), kind) <==> kind == e.kind || Has(conditions, kind)
  {
    var l := Logged(conditions, e, clock);
    LoggedWellFormed(conditions, e, clock);
    LoggedMembers(conditions, e, clock);
    HasWhenWellFormed(conditions, kind);
    HasWhenWellFormed(l, kind);
    assert l[|l| - 1] in l;
  }

  /** Logging a non-terminal entry again, at any later time, changes nothing. */
  lemma LoggedTwice(conditions: seq<Condition>, e: Entry, first: Clock, second: Clock)
    requires !Terminal(e.kind)
    ensures Logged(Logged(conditions, e, first), e, second) == Logged(conditions, e, first)
  {
  }

  // ---- the list is the history with only the last entry of each type ----

  ghost function DropKind(entries: seq<Entry>, kind: ConditionType): seq<Entry> {
    if entries == [] then []
    else (if entries[0].kind == kind then [] else [entries[0]]) + DropKind(entries[1..], kind)
  }

  lemma {:induction false} DropKindSnoc(entries: seq<Entry>, e: Entry, kind: ConditionType)
    ensures DropKind(entries + [e], kind) == DropKind(entries, kind) + if e.kind == kind then [] else [e]
  {
    if entries == [] {
      assert [e][1..] == [];
    } else {
      assert (entries + [e])[1..] == entries[1..] + [e];
      DropKindSnoc(entries[1..], e, kind);
    }
  }

  lemma {:induction false} WithoutIsDropKind(conditions: seq<Condition>, kind: ConditionType)
    ensures Entries(Without(conditions, kind)) == DropKind(Entries(conditions), kind)
  {
    if conditions != [] {
      var n := |conditions| - 1;
      WithoutIsDropKind(conditions[..n], kind);
      assert Entries(conditions) == Entries(conditions[..n]) + [EntryOf(conditions[n])];
      DropKindSnoc(Entries(conditions[..n]), EntryOf(conditions[n]), kind);
    }
  }

  lemma ReplacedSnoc(history: seq<Entry>, e: Entry)
    requires history != []
    ensures Replaced(history + [e]) <==> Replaced(history) || history[0].kind == e.kind
  {
    var longer := history + [e];
    assert longer[0] == history[0] && longer[|history|] == e;
    if Replaced(history) {
      var j :| 1 <= j < |history| && history[j].kind == history[0].kind;
      assert longer[j] == history[j];
    }
  }

  lemma {:induction false} KeepLastSnoc(history: seq<Entry>, e: Entry)
    ensures KeepLast(history + [e]) == DropKind(KeepLast(history), e.kind) + [e]
  {
    if history == [] {
      assert [e][1..] == [];
    } else {
      var rest := history[1..];
      assert (history + [e])[1..] == rest + [e];
      KeepLastSnoc(rest, e);
      ReplacedSnoc(history, e);
      assert ([history[0]] + KeepLast(rest))[1..] == KeepLast(rest);
    }
  }

  /** On the projection, one call moves its type to the back, whether or not it is reported as an update. */
  lemma LoggedEntries(conditions: seq<Condition>, e: Entry, clock: Clock)
    requires WellFormed(conditions)
    ensures Entries(Logged(conditions, e, clock)) == DropKind(Entries(conditions), e.kind) + [e]
  {
    if LogChanges(conditions, e) {
      var l := Logged(conditions, e, clock);
      assert Entries(l) == Entries(Without(conditions, e.kind)) + [e];
      WithoutIsDropKind(conditions, e.kind);
    } else {
      var front := conditions[..|conditions| - 1];
      assert Entries(conditions) == Entries(front) + [e];
      WithoutAbsent(front, e.kind);
      WithoutIsDropKind(front, e.kind);
      DropKindSnoc(Entries(front), e, e.kind);
    }
  }

  /** The (type, reason, message) projection of the list is the full history, last entry of each type only. */
  lemma {:induction false} ListRefinesHistory(calls: seq<Call>)
    ensures Entries(Replay(calls)) == KeepLast(Asked(calls))
    ensures WellFormed(Replay(calls))
    ensures calls != [] ==> EntryOf(Replay(calls)[|Replay(calls)| - 1]) == calls[|calls| - 1].entry
  {
    if calls != [] {
      var n := |calls| - 1;
      var before := Replay(calls[..n]);
      var e, clock := calls[n].entry, calls[n].clock;
      ListRefinesHistory(calls[..n]);
      assert Asked(calls) == Asked(calls[..n]) + [e];
      KeepLastSnoc(Asked(calls[..n]), e);
      LoggedEntries(before, e, clock);
      LoggedWellFormed(before, e, clock);
    }
  }

  /** The list says it ends in a type exactly when the last call logged that type. */
  lemma LastIsLastCall(calls: seq<Call>, kind: ConditionType)
    ensures LastIs(Replay(calls), kind) <==> calls != [] && calls[|calls| - 1].entry.kind == kind
  {
    ListRefinesHistory(calls);
  }

  ghost function KindsOf(conditions: seq<Condition>): (kinds: set<ConditionType>)
    ensures forall k :: k in kinds ==> exists i :: 0 <= i < |conditions| && conditions[i].kind == k
  {
    if conditions == [] then {}
    else
      var n := |conditions| - 1;
      assert forall i :: 0 <= i < n ==> conditions[..n][i] == conditions[i];
      KindsOf(conditions[..n]) + {conditions[n].kind}
  }

  lemma {:induction false} UniqueKindsCount(conditions: seq<Condition>)
    requires UniqueKinds(conditions)
    ensures |KindsOf(conditions)| == |conditions|
  {
    if conditions != [] {
      var n := |conditions| - 1;
      UniqueKindsCount(conditions[..n]);
      assert conditions[n].kind !in KindsOf(conditions[..n]);
    }
  }

  lemma SubsetSize<T>(small: set<T>, large: set<T>)
    requires small <= large
    ensures |small| <= |large|
  {
    assert large == small + (large - small);
  }

  /** However long the history, the list never holds more than the six types. */
  lemma ListIsBounded(calls: seq<Call>)
    ensures |Replay(calls)| <= 6
  {
    ListRefinesHistory(calls);
    UniqueKindsCount(Replay(calls));
    var all := {Starting, Running, Warning, Succeeded, Failed, Stopped};
    assert |all| <= 6;
    SubsetSize(KindsOf(Replay(calls)), all);
  }

  // ---- times ----

  ghost predicate MonotoneClock(calls: seq<Call>) {
    forall i, j :: 0 <= i < j < |calls| ==>
      calls[i].clock.update <= calls[j].clock.update && calls[i].clock.transition <= calls[j].clock.transition
  }

  ghost predicate SortedTimes(conditions: seq<Condition>) {
    forall i, j :: 0 <= i < j < |conditions| ==>
      conditions[i].updated <= conditions[j].updated && conditions[i].transitioned <= conditions[j].transitioned
  }

  ghost predicate NotAfter(conditions: seq<Condition>, clock: Clock) {
    forall i :: 0 <= i < |conditions| ==>
      conditions[i].updated <= clock.update && conditions[i].transitioned <= clock.transition
  }

  lemma {:induction false} WithoutSorted(conditions: seq<Condition>, kind: ConditionType)
    requires SortedTimes(conditions)
    ensures SortedTimes(Without(conditions, kind))
  {
    if conditions != [] {
      var n := |conditions| - 1;
      WithoutSorted(conditions[..n], kind);
      WithoutMembers(conditions[..n], kind);
      var w := Without(conditions[..n], kind);
      forall i | 0 <= i < |w|
        ensures w[i].updated <= conditions[n].updated && w[i].transitioned <= conditions[n].transitioned
      {
        assert w[i] in conditions[..n];
      }
    }
  }

  lemma LoggedSorted(conditions: seq<Condition>, e: Entry, clock: Clock)
    requires SortedTimes(conditions) && NotAfter(conditions, clock)
    ensures SortedTimes(Logged(conditions, e, clock)) && NotAfter(Logged(conditions, e, clock), clock)
  {
    WithoutSorted(conditions, e.kind);
    WithoutMembers(conditions, e.kind);
    var w := Without(conditions, e.kind);
    forall i | 0 <= i < |w|
      ensures w[i].updated <= clock.update && w[i].transitioned <= clock.transition
      ensures conditions != [] ==> w[i].transitioned <= conditions[|conditions| - 1].transitioned
    {
      assert w[i] in conditions;
    }
  }

  lemma {:induction false} TimesStaySorted(calls: seq<Call>)
    requires MonotoneClock(calls)
    ensures SortedTimes(Replay(calls))
    ensures calls != [] ==> NotAfter(Replay(calls), calls[|calls| - 1].clock)
  {
    if calls != [] {
      var n := |calls| - 1;
      TimesStaySorted(calls[..n]);
      LoggedSorted(Replay(calls[..n]), calls[n].entry, calls[n].clock);
    }
  }

  /** Where the current uninterrupted streak of one type began. */
  function StreakStart(calls: seq<Call>): (start: nat)
    requires calls != []
    ensures start < |calls|
    ensures forall i :: start <= i < |calls| ==> calls[i].entry.kind == calls[|calls| - 1].entry.kind
    ensures start > 0 ==> calls[start - 1].entry.kind != calls[|calls| - 1].entry.kind
  {
    var n := |calls| - 1;
    if n == 0 || calls[n - 1].entry.kind != calls[n].entry.kind then n
    else
      var start := StreakStart(calls[..n]);
      assert forall i :: start <= i < n ==> calls[i] == calls[..n][i];
      start
  }

  /** Where the current run of identical calls began. */
  function RunStart(calls: seq<Call>): (start: nat)
    requires calls != []
    ensures start < |calls|
    ensures forall i :: start <= i < |calls| ==> calls[i].entry == calls[|calls| - 1].entry
    ensures start > 0 ==> calls[start - 1].entry != calls[|calls| - 1].entry
  {
    var n := |calls| - 1;
    if n == 0 || calls[n - 1].entry != calls[n].entry then n
    else
      var start := RunStart(calls[..n]);
      assert forall i :: start <= i < n ==> calls[i] == calls[..n][i];
      start
  }

  /** The times of the tail after one call with a non-terminal entry. */
  lemma LoggedTail(conditions: seq<Condition>, e: Entry, clock: Clock)
    requires AllTrue(conditions) && !Terminal(e.kind)
    ensures var l, last := Logged(conditions, e, clock), LastOf(conditions);
            && l != []
            && l[|l| - 1].updated ==
               (if last.Some? && EntryOf(last.value) == e then last.value.updated else clock.update)
            && l[|l| - 1].transitioned ==
               (if last.Some? && last.value.kind == e.kind then last.value.transitioned else clock.transition)
  {
  }

  lemma StreakStep(calls: seq<Call>)
    requires |calls| > 1 && calls[|calls| - 2].entry.kind == calls[|calls| - 1].entry.kind
    ensures var front := calls[..|calls| - 1]; calls[StreakStart(calls)] == front[StreakStart(front)]
  {
  }

  lemma RunStep(calls: seq<Call>)
    requires |calls| > 1 && calls[|calls| - 2].entry == calls[|calls| - 1].entry
    ensures var front := calls[..|calls| - 1]; calls[RunStart(calls)] == front[RunStart(front)]
  {
  }

  /** The last condition after some calls says what the last call asked for. */
  lemma ReplayTail(calls: seq<Call>)
    requires calls != []
    ensures var last := LastOf(Replay(calls)); last.Some? && EntryOf(last.value) == calls[|calls| - 1].entry
    ensures AllTrue(Replay(calls))
  {
    ListRefinesHistory(calls);
  }

  lemma TailStep(calls: seq<Call>)
    requires |calls| > 1 && !Terminal(calls[|calls| - 1].entry.kind)
    ensures Replay(calls) != [] && Replay(calls[..|calls| - 1]) != []
    ensures var n := |calls| - 1;
            var tail, before := LastOf(Replay(calls)).value, LastOf(Replay(calls[..n])).value;
            && tail.updated == (if calls[n - 1].entry == calls[n].entry then before.updated else calls[n].clock.update)
            && tail.transitioned ==
               (if calls[n - 1].entry.kind == calls[n].entry.kind then before.transitioned
                else calls[n].clock.transition)
  {
    var n := |calls| - 1;
    ReplayTail(calls[..n]);
    LoggedTail(Replay(calls[..n]), calls[n].entry, calls[n].clock);
  }

  /**
   A non-terminal tail keeps the transition time of the call that began its streak, however often its
   reason and message changed, and the update time of the first of the identical calls at the end.
   */
  lemma {:induction false} TailTimes(calls: seq<Call>)
    requires calls != [] && !Terminal(calls[|calls| - 1].entry.kind)
    ensures Replay(calls) != []
    ensures var tail := LastOf(Replay(calls)).value;
            tail.transitioned == calls[StreakStart(calls)].clock.transition
            && tail.updated == calls[RunStart(calls)].clock.update
  {
    var n := |calls| - 1;
    if n == 0 {
      assert calls[..0] == [];
      LoggedTail([], calls[0].entry, calls[0].clock);
    } else {
      TailStep(calls);
      if calls[n - 1].entry.kind == calls[n].entry.kind {
        TailTimes(calls[..n]);
        StreakStep(calls);
        if calls[n - 1].entry == calls[n].entry {
          RunStep(calls);
        }
      }
    }
  }

  /** Call i says word for word what the call before it said. */
  predicate RepeatsPrevious(calls: seq<Call>, i: int) {
    0 < i < |calls| && calls[i].entry == calls[i - 1].entry
  }

  /** The last call of the current streak that began it or repeated the call before it. */
  function RestartAt(calls: seq<Call>): (at: nat)
    requires calls != []
    ensures StreakStart(calls) <= at < |calls|
    ensures at == StreakStart(calls) || RepeatsPrevious(calls, at)
  {
    var n := |calls| - 1;
    if n == 0 || calls[n - 1].entry.kind != calls[n].entry.kind || calls[n - 1].entry == calls[n].entry then n
    else
      var at := RestartAt(calls[..n]);
      assert RepeatsPrevious(calls[..n], at) ==> RepeatsPrevious(calls, at);
      at
  }

  lemma {:induction false} RestartIsLast(calls: seq<Call>, i: int)
    requires calls != [] && RepeatsPrevious(calls, i)
    ensures i <= RestartAt(calls)
  {
    var n := |calls| - 1;
    if i < n && !(calls[n - 1].entry.kind != calls[n].entry.kind || calls[n - 1].entry == calls[n].entry) {
      assert RepeatsPrevious(calls[..n], i);
      RestartIsLast(calls[..n], i);
    }
  }

  /** The times of the tail after one call with a terminal entry. */
  lemma LoggedTerminalTail(conditions: seq<Condition>, e: Entry, clock: Clock)
    requires AllTrue(conditions) && Terminal(e.kind)
    ensures var l, last := Logged(conditions, e, clock), LastOf(conditions);
            && l != [] && l[|l| - 1].updated == clock.update
            && l[|l| - 1].transitioned ==
               (if last.Some? && last.value.kind == e.kind && EntryOf(last.value) != e
                then last.value.transitioned else clock.transition)
  {
  }

  /**
   A terminal tail has the update time of the last call, and the transition time of the last call of its streak
   that began it or repeated its predecessor: a repeat restarts the transition time, a change of text does not.
   */
  lemma {:induction false} TerminalTailTimes(calls: seq<Call>)
    requires calls != [] && Terminal(calls[|calls| - 1].entry.kind)
    ensures Replay(calls) != []
    ensures var tail := LastOf(Replay(calls)).value;
            tail.transitioned == calls[RestartAt(calls)].clock.transition
            && tail.updated == calls[|calls| - 1].clock.update
  {
    var n := |calls| - 1;
    ListRefinesHistory(calls[..n]);
    LoggedTerminalTail(Replay(calls[..n]), calls[n].entry, calls[n].clock);
    if n > 0 && calls[n - 1].entry.kind == calls[n].entry.kind {
      TerminalTailTimes(calls[..n]);
    }
  }

  /** Some call after this one, later by the clock, says again what the call before it said. */
  ghost predicate RepeatsLater(calls: seq<Call>, start: nat)
    requires start < |calls|
  {
    exists i :: start < i && RepeatsPrevious(calls, i) && calls[i].clock.transition > calls[start].clock.transition
  }

  ghost predicate RepeatsInStreak(calls: seq<Call>)
    requires calls != []
  {
    RepeatsLater(calls, StreakStart(calls))
  }

  lemma LastRepeatDecides(calls: seq<Call>, start: nat, at: nat)
    requires MonotoneClock(calls) && start <= at < |calls| && (at == start || RepeatsPrevious(calls, at))
    requires forall i :: RepeatsPrevious(calls, i) ==> i <= at
    ensures RepeatsLater(calls, start) <==> calls[at].clock.transition != calls[start].clock.transition
  {
    if RepeatsLater(calls, start) {
      var i :| start < i && RepeatsPrevious(calls, i)
                    && calls[i].clock.transition > calls[start].clock.transition;
      assert i <= at;
    }
  }

  /**
   Whatever the type of the tail, its transition time is the start of its streak exactly when it is not terminal
   or no later call of the streak repeated the one before it.
   */
  lemma StreakRuleExact(calls: seq<Call>)
    requires calls != [] && MonotoneClock(calls)
    ensures Replay(calls) != []
    ensures LastOf(Replay(calls)).value.transitioned == calls[StreakStart(calls)].clock.transition <==>
              !Terminal(calls[|calls| - 1].entry.kind) || !RepeatsInStreak(calls)
  {
    if Terminal(calls[|calls| - 1].entry.kind) {
      TerminalTailTimes(calls);
      forall i | RepeatsPrevious(calls, i)
        ensures i <= RestartAt(calls)
      {
        RestartIsLast(calls, i);
      }
      LastRepeatDecides(calls, StreakStart(calls), RestartAt(calls));
    } else {
      TailTimes(calls);
    }
  }

  /** The rule does fail: two identical Succeeded calls. */
  lemma TerminalRepeatRestartsTransition()
    ensures exists calls: seq<Call> ::
              calls != [] && Terminal(calls[|calls| - 1].entry.kind) && Replay(calls) != []
              && Replay(calls)[|Replay(calls)| - 1].transitioned != calls[StreakStart(calls)].clock.transition
  {
    var e := SucceededEntry();
    var first := Call(e, ClockReads(0, 0, 0, 0));
    var second := Call(e, ClockReads(1, 1, 1, 1));
    var one := [first];
    var calls := [first, second];
    assert one[..0] == [] && calls[..1] == one;
    var at0 := Condition(Succeeded, True, 0, 0, e.reason, e.message);
    assert Replay(one) == [at0];
    var w := Without([at0], Succeeded);
    assert [at0][..0] == [] && w == [];
    assert Replay(calls) == [Condition(Succeeded, True, 1, 1, e.reason, e.message)];
    assert StreakStart(one) == 0 && StreakStart(calls) == 0;
  }
}
