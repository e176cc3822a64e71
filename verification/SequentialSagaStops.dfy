/** The stop that costs a compensation: a pass that stops between the answer to an action and the write
    that records it leaves a success that no later pass compensates. */
module SequentialSagaStops {
  import opened Core
  import opened Edits
  import opened SequentialSaga
  import opened SequentialSagaSafety
  import O = SequentialSagaOrder

  /** Since position `from`, no compensation of branch i was called or answered. */
  predicate NotCompensatedSince(log: seq<LogEvent>, i: nat, from: nat) {
    forall p :: from <= p < |log| && !log[p].Stored? && log[p].op == Compensate ==> log[p].index != i
  }

  predicate NotOwed(tx: Transaction, i: nat) { i < |tx.branches| && !Owed(tx.branches[i]) }

  /** Action i succeeded, and neither the record nor the worker knows. */
  ghost predicate Forgotten(s: State, i: nat, from: nat) {
    && ActionOk(s.log, i) && NotOwed(s.stored, i) && NotCompensatedSince(s.log, i, from)
    && (!s.worker.Idle? ==> NotOwed(s.worker.tx, i))
    && (s.worker.ActionCall? ==> s.worker.k != i)
  }

  /** Branch i cannot be called again: its action keeps the barrier. */
  lemma KeepsBarrier(s: State, tx: Transaction, i: nat)
    requires Inv(s) && ActionOk(s.log, i) && SameDefinitions(tx.branches, s.stored.branches)
    ensures i < |tx.branches| && KeyAt(tx.branches, i, Action) in s.held
  {
    var p :| 0 <= p < |s.log| && s.log[p].Answered? && s.log[p].op == Action && s.log[p].index == i && s.log[p].ok;
    assert s.log[p].id == s.stored.branches[i].id;
    assert Definition(tx.branches[i]) == Definition(s.stored.branches[i]);
  }

  /** A step of the worker alone. */
  lemma MoveForgets(s: State, s': State, i: nat, from: nat)
    requires Forgotten(s, i, from) && s'.stored == s.stored && s'.log == s.log
    requires !s'.worker.Idle? ==> NotOwed(s'.worker.tx, i)
    requires s'.worker.ActionCall? ==> s'.worker.k != i
    ensures Forgotten(s', i, from)
  {
  }

  lemma ActionForgets(s: State, i: nat, from: nat, retryAt: nat)
    requires Inv(s) && Forgotten(s, i, from) && (s.worker.AtAction? || s.worker.ActionCall?)
    ensures Forgotten(AdvanceStep(s, retryAt), i, from)
  {
    KeepsBarrier(s, s.worker.tx, i);
    MoveForgets(s, AdvanceStep(s, retryAt), i, from);
  }

  lemma CompensationForgets(s: State, tx: Transaction, k: nat, i: nat, from: nat)
    requires Inv(s) && Forgotten(s, i, from) && s.worker == AtCompensation(tx, k) && 0 < k <= |tx.branches|
    ensures Forgotten(AdvanceCompensation(s, tx, k), i, from)
  {
    MoveForgets(s, AdvanceCompensation(s, tx, k), i, from);
  }

  lemma FinishForgets(s: State, tx: Transaction, k: nat, ok: bool, retryAt: nat, i: nat, from: nat)
    requires Inv(s) && Forgotten(s, i, from) && s.worker == CompensationCall(tx, k, Replied(ok))
    ensures Forgotten(FinishCompensation(s, tx, k, ok, retryAt), i, from)
  {
    assert Owed(tx.branches[k - 1]);
    MoveForgets(s, FinishCompensation(s, tx, k, ok, retryAt), i, from);
  }

  lemma AdvanceForgets(s: State, i: nat, from: nat, retryAt: nat)
    requires Inv(s) && Forgotten(s, i, from)
    ensures Forgotten(AdvanceStep(s, retryAt), i, from)
  {
    match s.worker
    case AtAction(_, _) => ActionForgets(s, i, from, retryAt);
    case ActionCall(_, _, _) => ActionForgets(s, i, from, retryAt);
    case AtCompensation(tx, k) => if 0 < k <= |tx.branches| { CompensationForgets(s, tx, k, i, from); }
    case CompensationCall(tx, k, Replied(ok)) => FinishForgets(s, tx, k, ok, retryAt, i, from);
    case _ =>
  }

  lemma BeginForgets(s: State, request: Request, i: nat, from: nat)
    requires Forgotten(s, i, from)
    ensures Forgotten(s.(worker := BeginRequest(s.stored, request)), i, from)
  {
    MoveForgets(s, s.(worker := BeginRequest(s.stored, request)), i, from);
  }

  lemma CallForgets(s: State, e: LogEvent, call: Call, i: nat, from: nat)
    requires Inv(s) && Forgotten(s, i, from) && from <= |s.log| && Logs(s, e, call)
    ensures Forgotten(s.(log := s.log + [e], worker := s.worker.(call := call)), i, from)
  {
    OkAppend(s.log, e);
  }

  lemma PersistForgets(s: State, time: nat, i: nat, from: nat)
    requires Forgotten(s, i, from)
    ensures Forgotten(PersistStep(s, time), i, from)
  {
    if s.worker.Persisting? { OkAppend(s.log, Stored(s.worker.tx.status)); }
  }

  lemma IssueForgets(s: State, at: nat, i: nat, from: nat)
    requires Inv(s) && Forgotten(s, i, from) && from <= |s.log|
    ensures Forgotten(IssueStep(s, at), i, from)
  {
    if Target(s.worker).Some? && s.worker.call == Spawned {
      var (op, j) := Target(s.worker).value;
      CallForgets(s, Issued(op, j, s.worker.tx.branches[j].id, at), Open, i, from);
    }
  }

  lemma AnswerForgets(s: State, ok: bool, i: nat, from: nat)
    requires Inv(s) && Forgotten(s, i, from) && from <= |s.log|
    ensures Forgotten(AnswerStep(s, ok), i, from)
  {
    if Target(s.worker).Some? && s.worker.call == Open {
      var (op, j) := Target(s.worker).value;
      CallForgets(s, Answered(op, j, s.worker.tx.branches[j].id, ok), Replied(ok), i, from);
    }
  }

  lemma StepForgets(s: State, e: Event, i: nat, from: nat)
    requires Inv(s) && Forgotten(s, i, from) && from <= |s.log|
    ensures Forgotten(Step(s, e), i, from) && |s.log| <= |Step(s, e).log|
  {
    match e
    case Begin(request) => if s.worker.Idle? { BeginForgets(s, request, i, from); }
    case Persist(time) => PersistForgets(s, time, i, from);
    case Advance(retryAt) => AdvanceForgets(s, i, from, retryAt);
    case Issue(at) => IssueForgets(s, at, i, from);
    case Answer(ok) => AnswerForgets(s, ok, i, from);
    case Crash =>
  }

  lemma {:induction false} ExecForgets(s: State, es: seq<Event>, i: nat, from: nat)
    requires Inv(s) && Forgotten(s, i, from) && from <= |s.log|
    ensures Forgotten(Exec(s, es), i, from)
    decreases |es|
  {
    if es != [] {
      StepForgets(s, es[0], i, from);
      StepKeeps(s, es[0]);
      ExecForgets(Step(s, es[0]), es[1..], i, from);
    }
  }

  /** The record shows Succeeded only for recorded branches. */
  predicate Shown(s: State) {
    forall i :: 0 <= i < |s.stored.branches| && s.stored.branches[i].status.Succeeded? ==> i in s.recorded
  }

  lemma {:induction false} ExecShown(s: State, es: seq<Event>)
    requires Shown(s)
    ensures Shown(Exec(s, es))
    decreases |es|
  {
    if es != [] { ExecShown(Step(s, es[0]), es[1..]); }
  }

  /** A pass that stops with a success it has not stored loses the compensation for good: whatever
      follows, that branch is never compensated. */
  lemma StopLosesCompensation(s: State, run: seq<Event>, i: nat, es: seq<Event>)
    requires Fresh(s) && Holding(Exec(s, run).worker, i) && i !in Exec(s, run).recorded
    ensures var end := Exec(CrashStep(Exec(s, run)), es);
            && ActionOk(end.log, i) && i < |end.stored.branches| && !Owed(end.stored.branches[i])
            && NotCompensatedSince(end.log, i, |Exec(s, run).log|)
  {
    ExecKeeps(s, run);
    ExecShown(s, run);
    var stop := Exec(s, run);
    StepKeeps(stop, Crash);
    assert Forgotten(CrashStep(stop), i, |stop.log|);
    ExecForgets(CrashStep(stop), es, i, |stop.log|);
  }

  // ---------------------------------------------------------------------
  // A run that loses one

  const STOP_AND_ABORT: seq<Event> := [Answer(true), Crash, Begin(Abort), Advance(0)]
  const END: seq<Event> := [Advance(0), Persist(0)]

  /** The only action is open, and the record still shows it as pending. */
  predicate OpenUnstored(s: State) {
    && s.worker.ActionCall? && s.worker.k == 0 && s.worker.call == Open && |s.worker.tx.branches| == 1
    && s.stored.status.Succeeding? && |s.stored.branches| == 1 && s.stored.branches[0].status.Pending?
    && NotCompensatedSince(s.log, 0, 0)
  }

  lemma Opens(s: State)
    requires Fresh(s) && |s.stored.branches| == 1
    ensures OpenUnstored(Exec(s, O.FIRST_ACTION))
  {
    O.RunFour(s, Begin(Start), Persist(0), Advance(0), Issue(0));
    var s2 := Step(Step(s, Begin(Start)), Persist(0));
    assert s2.worker.AtAction? && s2.held == {} && s2.worker.tx.branches == s.stored.branches && s2.log == [Stored(Succeeding)];
    OpensNext(s2);
  }

  lemma OpensNext(s: State)
    requires s.worker.AtAction? && s.worker.k == 0 && s.held == {} && s.log == [Stored(Succeeding)]
    requires |s.worker.tx.branches| == 1 && !s.worker.tx.branches[0].status.Succeeded?
    requires s.stored.status.Succeeding? && |s.stored.branches| == 1 && s.stored.branches[0].status.Pending?
    ensures OpenUnstored(Step(Step(s, Advance(0)), Issue(0)))
  {
    var s3 := Step(s, Advance(0));
    assert s3.worker.ActionCall? && s3.log == s.log && s3.stored == s.stored;
  }

  lemma StopsAndAborts(s: State)
    requires OpenUnstored(s)
    ensures var t := Exec(s, STOP_AND_ABORT);
            && ActionOk(t.log, 0) && NotCompensatedSince(t.log, 0, 0) && t.worker.AtCompensation? && t.worker.k == 0
  {
    O.RunFour(s, Answer(true), Crash, Begin(Abort), Advance(0));
    var s1 := Step(s, Answer(true));
    assert s1.log == s.log + [Answered(Action, 0, s.worker.tx.branches[0].id, true)];
    OkAppend(s.log, s1.log[|s.log|]);
    var s3 := Step(Step(s1, Crash), Begin(Abort));
    assert s3.worker == AtCompensation(s.stored.(status := Aborting), 1) && s3.log == s1.log;
  }

  lemma EndsAborted(s: State)
    requires s.worker.AtCompensation? && s.worker.k == 0 && ActionOk(s.log, 0) && NotCompensatedSince(s.log, 0, 0)
    ensures var t := Exec(s, END);
            t.stored.status.Aborted? && ActionOk(t.log, 0) && NotCompensatedSince(t.log, 0, 0)
  {
    var s1 := Step(s, Advance(0));
    assert END[1..] == [Persist(0)] && [Persist(0)][1..] == [];
    assert Exec(s1, [Persist(0)]) == Exec(Step(s1, Persist(0)), []);
    OkAppend(s.log, Stored(Aborted));
  }

  /** A one-branch Saga whose action succeeds, whose pass stops before storing it, and which ends
      Aborted without a compensation. */
  lemma StoppedSuccessIsAborted(s: State)
    requires Fresh(s) && |s.stored.branches| == 1
    ensures var t := Exec(s, O.FIRST_ACTION + STOP_AND_ABORT + END);
            t.stored.status.Aborted? && ActionOk(t.log, 0) && NotCompensatedSince(t.log, 0, 0)
  {
    Opens(s);
    StopsAndAborts(Exec(s, O.FIRST_ACTION));
    O.ExecAppend(s, O.FIRST_ACTION, STOP_AND_ABORT);
    EndsAborted(Exec(s, O.FIRST_ACTION + STOP_AND_ABORT));
    O.ExecAppend(s, O.FIRST_ACTION + STOP_AND_ABORT, END);
  }
}
