/** Counting the failed calls of a branch in the log, and how many a branch is allowed. */
module Attempts {
  import opened Core

  predicate FailureOf(e: LogEvent, op: Operation, i: nat) {
    e.Answered? && !e.ok && e.op == op && e.index == i
  }

  /** How often a call of branch i was answered with failure. */
  function Failures(log: seq<LogEvent>, op: Operation, i: nat): nat {
    if log == [] then 0
    else Failures(log[..|log| - 1], op, i) + if FailureOf(log[|log| - 1], op, i) then 1 else 0
  }

  lemma FailuresAppend(log: seq<LogEvent>, e: LogEvent)
    ensures forall op, i: nat :: Failures(log + [e], op, i) == Failures(log, op, i) + if FailureOf(e, op, i) then 1 else 0
  {
    assert (log + [e])[..|log|] == log;
  }

  /** The first call and the retries; without a limit on retries the given number of calls. The counters
      have 32 bits. */
  function Allowed(o: Options, otherwise: nat): nat {
    match o.retryLimit
    case None => otherwise
    case Some(retries) => if retries + 1 <= MAX_U32 then retries + 1 else MAX_U32
  }

  predicate Fits32(o: Options, bs: seq<Branch>) {
    && (o.retryLimit.Some? ==> o.retryLimit.value <= MAX_U32)
    && forall i :: 0 <= i < |bs| ==> bs[i].attempts <= MAX_U32
  }

  function Sat32(n: nat): nat { if n <= MAX_U32 then n else MAX_U32 }

  /** The calls of branch i that counted as attempts before the run, and its failures in the run. */
  function Tried(start: seq<Branch>, log: seq<LogEvent>, op: Operation, i: nat): nat
    requires i < |start|
  {
    start[i].attempts + Failures(log, op, i)
  }

  /** Some branch has failed as often as it may. */
  predicate Spent(start: seq<Branch>, log: seq<LogEvent>, op: Operation, allowed: nat) {
    exists i: nat :: i < |start| && Tried(start, log, op, i) >= allowed
  }

  lemma SpentAppend(start: seq<Branch>, log: seq<LogEvent>, e: LogEvent, op: Operation, allowed: nat)
    requires Spent(start, log, op, allowed)
    ensures Spent(start, log + [e], op, allowed)
  {
    FailuresAppend(log, e);
    var i: nat :| i < |start| && Tried(start, log, op, i) >= allowed;
    assert Tried(start, log + [e], op, i) >= allowed;
  }
}
