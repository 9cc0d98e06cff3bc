/** What a status decision asks for, and its effect on the status. */
module Verdicts {
  import opened Prelude
  import opened Conditions
  import opened ConditionHistory
  import opened Pods

  /** `forced` verdicts are reported as updates even when the condition list did not change. */
  datatype Verdict = Keep | Fault | Log(entry: Entry, forced: bool)

  /** Builds a failure message from the child's message, the main container's exit and the attempts. */
  type Formatter = (string, Option<ExitStatus>, Option<int32>) -> string

  /** The completion time is stamped with `now` exactly by terminal verdicts. */
  function Apply(s: Status, v: Verdict, clock: Clock, now: int): Status {
    if v.Log? then Record(s, v.entry, clock, if Terminal(v.entry.kind) then Some(now) else None) else s
  }

  predicate Updates(s: Status, v: Verdict) {
    v.Log? && (v.forced || LogChanges(s.conditions, v.entry))
  }

  predicate Terminates(v: Verdict) { v.Log? && Terminal(v.entry.kind) }

  function Warns(h: Health): Verdict { Log(WarningEntry(h.reason, h.message), false) }

  function FailsImage(message: string): Verdict { Log(Entry(Failed, INVALID_IMAGE, message), false) }

  /** A non-terminal verdict applied twice is the verdict applied once. */
  lemma ApplyTwice(s: Status, v: Verdict, c1: Clock, n1: int, c2: Clock, n2: int)
    requires !Terminates(v)
    ensures Apply(Apply(s, v, c1, n1), v, c2, n2) == Apply(s, v, c1, n1)
  {
    if v.Log? {
      LoggedTwice(s.conditions, v.entry, c1, c2);
    }
  }
}
