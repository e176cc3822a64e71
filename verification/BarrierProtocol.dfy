/** The discipline every coordinator operation follows around a branch call: claim the
    barrier, call, keep the barrier after a success and release it after a failure.
    Any number of workers run it at once, and any of them can stop at any point. */
module BarrierProtocol {
  import opened Core

  /** How far a worker has got with a barrier it inserted. */
  datatype Phase = Claimed | Open | Refused

  datatype Slot = Slot(worker: nat, key: Key)

  datatype State = State(held: set<Key>, slots: map<Slot, Phase>, log: seq<LogEvent>)

  datatype Event =
    | Claim(worker: nat, key: Key, callsNull: bool)   // callsNull: the branch runs its own try
    | Issue(worker: nat, key: Key, index: nat, at: nat)
    | Answer(worker: nat, key: Key, index: nat, ok: bool)
    | Release(worker: nat, key: Key)
    | Crash(worker: nat)
    | Note(status: TransactionStatus)
    | Pause

  const EMPTY: State := State({}, map[], [])

  function Step(s: State, e: Event): State {
    match e
    case Claim(w, key, callsNull) =>
      if Slot(w, key) in s.slots then s else
        var d := Decide(s.held, key);
        if d == Execute || (d == SkipNullCompensation && callsNull)
        then State(Hold(s.held, key), s.slots[Slot(w, key) := Claimed], s.log)
        else s.(held := Hold(s.held, key))
    case Issue(w, key, index, at) =>
      if InPhase(s, w, key, Claimed)
      then State(s.held, s.slots[Slot(w, key) := Phase.Open], s.log + [Issued(key.op, index, key.branch, at)])
      else s
    case Answer(w, key, index, ok) =>
      if InPhase(s, w, key, Phase.Open)
      then State(s.held,
                 if ok then s.slots - {Slot(w, key)} else s.slots[Slot(w, key) := Refused],
                 s.log + [Answered(key.op, index, key.branch, ok)])
      else s
    case Release(w, key) =>
      if InPhase(s, w, key, Claimed) || InPhase(s, w, key, Refused)
      then State(s.held - {key}, s.slots - {Slot(w, key)}, s.log)
      else s
    case Crash(w) => s.(slots := map x | x in s.slots && x.worker != w :: s.slots[x])
    case Note(status) => s.(log := s.log + [Stored(status)])
    case Pause => s
  }

  predicate InPhase(s: State, w: nat, key: Key, phase: Phase) {
    Slot(w, key) in s.slots && s.slots[Slot(w, key)] == phase
  }

  function Exec(s: State, es: seq<Event>): State
    decreases |es|
  {
    if es == [] then s else Exec(Step(s, es[0]), es[1..])
  }

  // ---------------------------------------------------------------------
  // Counting calls

  predicate IsIssue(e: LogEvent, key: Key) { e.Issued? && Key(e.id, e.op) == key }
  predicate IsFailure(e: LogEvent, key: Key) { e.Answered? && Key(e.id, e.op) == key && !e.ok }
  predicate IsSuccess(e: LogEvent, key: Key) { e.Answered? && Key(e.id, e.op) == key && e.ok }

  /** Calls made for the key that were not answered with a failure. */
  function Live(log: seq<LogEvent>, key: Key): int {
    if log == [] then 0
    else
      var e := log[|log| - 1];
      Live(log[..|log| - 1], key) + (if IsIssue(e, key) then 1 else if IsFailure(e, key) then -1 else 0)
  }

  /** Calls for the key that were answered with a success. */
  function Successes(log: seq<LogEvent>, key: Key): nat {
    if log == [] then 0
    else Successes(log[..|log| - 1], key) + (if IsSuccess(log[|log| - 1], key) then 1 else 0)
  }

  // ---------------------------------------------------------------------
  // The invariant

  ghost predicate OneHolder(s: State) {
    forall x, y :: x in s.slots && y in s.slots && x.key == y.key ==> x.worker == y.worker
  }

  ghost predicate Accounted(s: State, key: Key) {
    && 0 <= Successes(s.log, key) <= Live(s.log, key) <= 1
    && (key !in s.held ==> Live(s.log, key) == 0)
    && (forall w :: Slot(w, key) in s.slots ==>
          && key in s.held
          && (s.slots[Slot(w, key)] == Phase.Open ==> Live(s.log, key) == 1 && Successes(s.log, key) == 0)
          && (s.slots[Slot(w, key)] != Phase.Open ==> Live(s.log, key) == 0))
  }

  ghost predicate Inv(s: State) {
    OneHolder(s) && forall key :: Accounted(s, key)
  }

  lemma StepKeepsOneHolder(s: State, e: Event)
    requires Inv(s)
    ensures OneHolder(Step(s, e))
  {
    var s' := Step(s, e);
    if e.Claim? {
      forall x | x in s.slots ensures x.key in s.held {
        assert Accounted(s, x.key);
        assert x == Slot(x.worker, x.key);
      }
    }
  }

  lemma CallKeepsAccounts(s: State, e: Event, key: Key)
    requires Inv(s) && (e.Issue? || e.Answer?)
    ensures Accounted(Step(s, e), key)
  {
    var s' := Step(s, e);
    assert Accounted(s, key);
    if s'.log != s.log {
      if key == e.key {
        forall w | Slot(w, key) in s'.slots ensures w == e.worker {
          assert Slot(w, key) in s.slots && Slot(e.worker, key) in s.slots;
        }
      }
    }
  }

  lemma ReleaseKeepsAccounts(s: State, e: Event, key: Key)
    requires Inv(s) && e.Release?
    ensures Accounted(Step(s, e), key)
  {
    var s' := Step(s, e);
    assert Accounted(s, key);
    if s' != s && key == e.key {
      forall w ensures Slot(w, key) !in s'.slots {
        if Slot(w, key) in s.slots { assert Slot(w, key).worker == Slot(e.worker, key).worker; }
      }
    }
  }

  lemma StepKeepsAccounts(s: State, e: Event, key: Key)
    requires Inv(s)
    ensures Accounted(Step(s, e), key)
  {
    assert Accounted(s, key);
    match e
    case Claim(w, k, _) => assert Accounted(s, k);
    case Issue(_, _, _, _) => CallKeepsAccounts(s, e, key);
    case Answer(_, _, _, _) => CallKeepsAccounts(s, e, key);
    case Release(_, _) => ReleaseKeepsAccounts(s, e, key);
    case Crash(_) =>
    case Note(status) =>
    case Pause =>
  }

  lemma StepKeepsInv(s: State, e: Event)
    requires Inv(s)
    ensures Inv(Step(s, e))
  {
    StepKeepsOneHolder(s, e);
    forall key ensures Accounted(Step(s, e), key) { StepKeepsAccounts(s, e, key); }
  }

  lemma {:induction false} ExecKeepsInv(s: State, es: seq<Event>)
    requires Inv(s)
    ensures Inv(Exec(s, es))
    decreases |es|
  {
    if es != [] {
      StepKeepsInv(s, es[0]);
      ExecKeepsInv(Step(s, es[0]), es[1..]);
    }
  }

  /** At most once: in every interleaving with crashes, a barrier has one holder, at most one
      call made for it is not answered with a failure, and at most one is answered with success. */
  lemma AtMostOnce(es: seq<Event>, key: Key)
    ensures forall v, w :: Slot(v, key) in Exec(EMPTY, es).slots && Slot(w, key) in Exec(EMPTY, es).slots ==> v == w
    ensures Successes(Exec(EMPTY, es).log, key) <= Live(Exec(EMPTY, es).log, key) <= 1
  {
    ExecKeepsInv(EMPTY, es);
    var s := Exec(EMPTY, es);
    assert Accounted(s, key);
    forall v, w | Slot(v, key) in s.slots && Slot(w, key) in s.slots ensures v == w {
      assert Slot(v, key).key == Slot(w, key).key;
    }
  }

  /** Once a call for the key has succeeded, nobody claims the key again. */
  lemma SuccessIsFinal(es: seq<Event>, w: nat, key: Key, callsNull: bool)
    requires Successes(Exec(EMPTY, es).log, key) == 1
    ensures key in Exec(EMPTY, es).held
    ensures Decide(Exec(EMPTY, es).held, key) == SkipDuplicate
    ensures Step(Exec(EMPTY, es), Claim(w, key, callsNull)) == Exec(EMPTY, es)
  {
    ExecKeepsInv(EMPTY, es);
    assert Accounted(Exec(EMPTY, es), key);
  }
}
