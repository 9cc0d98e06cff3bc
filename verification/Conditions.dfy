/**
 The condition log of an operation (api/v1/condition.go): a mutable list in which logging a type
 removes its earlier entry and appends a new one at the back.
 */
module Conditions {
  import opened Prelude

  datatype ConditionType = Starting | Running | Warning | Succeeded | Failed | Stopped

  datatype Truth = True | False | Unknown

  datatype Condition = Condition(
    kind: ConditionType, status: Truth, updated: int, transitioned: int, reason: string, message: string)

  /** What one Log call asks for, after defaults are filled in. */
  datatype Entry = Entry(kind: ConditionType, reason: string, message: string)

  /** The clock readings around one Log call, in the order the code takes them. */
  datatype ClockReads = ClockReads(before: int, update: int, transition: int, after: int)

  type Clock = c: ClockReads | c.before <= c.update <= c.transition <= c.after
    witness ClockReads(0, 0, 0, 0)

  /** The value of an OperationStatus. */
  datatype Status = Status(conditions: seq<Condition>, start: Option<int>, completion: Option<int>)

  const OPERATOR := "OperatorController"
  const STARTING_MESSAGE := "Operation is starting"
  const RUNNING_MESSAGE := "Operation is running"
  const SUCCEEDED_MESSAGE := "Operation has succeeded"
  const WARNING_MESSAGE := "Underlaying job has an issue"
  const JOB_DELETED := "JobDeleted"

  predicate Terminal(kind: ConditionType) {
    kind == Succeeded || kind == Failed || kind == Stopped
  }

  function StartingEntry(): Entry { Entry(Starting, OPERATOR, STARTING_MESSAGE) }

  function RunningEntry(): Entry { Entry(Running, OPERATOR, RUNNING_MESSAGE) }

  function SucceededEntry(): Entry { Entry(Succeeded, OPERATOR, SUCCEEDED_MESSAGE) }

  function WarningEntry(reason: string, message: string): Entry {
    Entry(Warning, if reason == "" then OPERATOR else reason,
          if message == "" then WARNING_MESSAGE else message)
  }

  function DeletedEntry(jobType: string, useFailed: bool): Entry {
    Entry(if useFailed then Failed else Stopped, JOB_DELETED,
          "The underlying " + jobType + " was deleted externally")
  }

  function EntryOf(c: Condition): Entry { Entry(c.kind, c.reason, c.message) }

  function LastOf(conditions: seq<Condition>): Option<Condition> {
    if conditions == [] then None else Some(conditions[|conditions| - 1])
  }

  /** The list without the entries of one type, order kept. */
  function Without(conditions: seq<Condition>, kind: ConditionType): seq<Condition> {
    if conditions == [] then []
    else
      var n := |conditions| - 1;
      Without(conditions[..n], kind) + if conditions[n].kind == kind then [] else [conditions[n]]
  }

  /** The tail already says exactly this. */
  predicate Repeats(conditions: seq<Condition>, e: Entry) {
    var last := LastOf(conditions);
    last.Some? && last.value.status == True && EntryOf(last.value) == e
  }

  /** The tail is a true condition of this type, so only its reason or message can differ. */
  predicate Continues(conditions: seq<Condition>, e: Entry) {
    var last := LastOf(conditions);
    last.Some? && last.value.status == True && last.value.kind == e.kind
  }

  /** Whether logging this entry is reported as an update. */
  predicate LogChanges(conditions: seq<Condition>, e: Entry) {
    Repeats(conditions, e) ==> Terminal(e.kind)
  }

  /** The condition list after logging an entry. */
  function Logged(conditions: seq<Condition>, e: Entry, clock: Clock): seq<Condition> {
    if !LogChanges(conditions, e) then conditions
    else
      var since := if Continues(conditions, e) && !Repeats(conditions, e)
                   then conditions[|conditions| - 1].transitioned else clock.transition;
      Without(conditions, e.kind) + [Condition(e.kind, True, clock.update, since, e.reason, e.message)]
  }

  function FirstOfKind(conditions: seq<Condition>, kind: ConditionType): Option<Condition> {
    if conditions == [] then None
    else if conditions[0].kind == kind then Some(conditions[0])
    else FirstOfKind(conditions[1..], kind)
  }

  /** The first condition of this type exists and is true. */
  predicate Has(conditions: seq<Condition>, kind: ConditionType) {
    var c := FirstOfKind(conditions, kind);
    c.Some? && c.value.status == True
  }

  predicate LastIs(conditions: seq<Condition>, kind: ConditionType) {
    var c := LastOf(conditions);
    c.Some? && c.value.kind == kind && c.value.status == True
  }

  predicate Done(conditions: seq<Condition>) {
    Has(conditions, Succeeded) || Has(conditions, Failed) || Has(conditions, Stopped)
  }

  /** A missing child means it was deleted, rather than never created. */
  predicate MarksDeleted(conditions: seq<Condition>) {
    !Done(conditions) && conditions != [] && conditions[|conditions| - 1].kind in {Running, Warning}
  }

  /** The status after logging an entry, stamping the completion time when asked to. */
  function Record(s: Status, e: Entry, clock: Clock, completion: Option<int>): Status {
    Status(Logged(s.conditions, e, clock), s.start, if completion.Some? then completion else s.completion)
  }

  class OperationStatus {
    var conditions: seq<Condition>
    var startTime: Option<int>
    var completionTime: Option<int>

    constructor ()
      ensures Value() == Status([], None, None)
    {
      conditions, startTime, completionTime := [], None, None;
    }

    ghost function Value(): Status
      reads this
    {
      Status(conditions, startTime, completionTime)
    }

    predicate IsRunning()
      reads this
    {
      LastIs(conditions, Running)
    }

    predicate IsDone()
      reads this
    {
      Done(conditions)
    }

    method RemoveCondition(kind: ConditionType)
      modifies this`conditions
      ensures conditions == Without(old(conditions), kind)
    {
      var kept: seq<Condition> := [];
      for i := 0 to |conditions|
        invariant conditions == old(conditions)
        invariant kept == Without(conditions[..i], kind)
      {
        assert conditions[..i + 1][..i] == conditions[..i];
        if conditions[i].kind != kind {
          kept := kept + [conditions[i]];
        }
      }
      assert conditions[..|conditions|] == conditions;
      conditions := kept;
    }

    method LogCondition(e: Entry, clock: Clock) returns (updated: bool)
      modifies this`conditions
      ensures conditions == Logged(old(conditions), e, clock)
      ensures updated == LogChanges(old(conditions), e)
    {
      var current := LastOf(conditions);
      var next := Condition(e.kind, True, clock.update, clock.transition, e.reason, e.message);
      if current.Some? && current.value.kind == next.kind && current.value.status == next.status
         && current.value.reason == next.reason && current.value.message == next.message {
        updated := current.value.kind == Succeeded || current.value.kind == Failed || current.value.kind == Stopped;
      } else {
        if current.Some? && current.value.kind == next.kind && current.value.status == next.status {
          next := next.(transitioned := current.value.transitioned);
        }
        updated := true;
      }
      if updated {
        RemoveCondition(e.kind);
        conditions := conditions + [next];
      }
    }

    method LogWarning(reason: string, message: string, clock: Clock) returns (updated: bool)
      modifies this`conditions
      ensures conditions == Logged(old(conditions), WarningEntry(reason, message), clock)
      ensures updated == LogChanges(old(conditions), WarningEntry(reason, message))
    {
      var r, m := reason, message;
      if r == "" {
        r := OPERATOR;
      }
      if m == "" {
        m := WARNING_MESSAGE;
      }
      updated := LogCondition(Entry(Warning, r, m), clock);
    }

    /** The recurring step of the decisions: log an end state and, if that was an update, stamp the completion. */
    method LogFinal(e: Entry, clock: Clock, now: int) returns (updated: bool)
      requires Terminal(e.kind)
      modifies this`conditions, this`completionTime
      ensures updated
      ensures Value() == Record(old(Value()), e, clock, Some(now))
    {
      updated := LogCondition(e, clock);
      if updated {
        completionTime := Some(now);
      }
    }

    /** A missing child is marked deleted exactly when the operation got past creation and is not done. */
    method ShouldMarkJobAsDeleted() returns (mark: bool, done: bool)
      ensures done == IsDone()
      ensures mark == MarksDeleted(conditions)
    {
      if IsDone() {
        return false, true;
      }
      if |conditions| == 0 {
        return false, false;
      }
      var last := conditions[|conditions| - 1];
      return last.kind == Running || last.kind == Warning, false;
    }

    method MarkJobAsDeleted(jobType: string, useFailed: bool, clock: Clock) returns (updated: bool)
      modifies this`conditions, this`completionTime
      ensures updated
      ensures Value() == Record(old(Value()), DeletedEntry(jobType, useFailed), clock, Some(clock.before))
    {
      var message := "The underlying " + jobType + " was deleted externally";
      updated := LogFinal(Entry(if useFailed then Failed else Stopped, JOB_DELETED, message), clock, clock.before);
    }
  }
}
