/** What every run of the sequential Saga keeps, with stops at any point: actions succeed as a prefix
    in declaration order, nothing succeeds twice, and Aborted means that every branch stored as
    Succeeded was compensated. */
module SequentialSagaSafety {
  import opened Core
  import opened Edits
  import opened SequentialSaga

  predicate ActionOk(log: seq<LogEvent>, i: nat) { AnsweredOk(log, Action, i) }
  predicate CompensationOk(log: seq<LogEvent>, i: nat) { AnsweredOk(log, Compensate, i) }

  /** The actions that were answered with success, given the log before e, are below e's. */
  predicate EventOk(e: LogEvent, before: seq<LogEvent>) {
    !e.Stored? ==>
      && !AnsweredOk(before, e.op, e.index)
      && (e.op == Action ==> forall j: nat :: j < e.index ==> ActionOk(before, j))
  }

  ghost predicate LogOk(log: seq<LogEvent>) {
    forall p :: 0 <= p < |log| ==> EventOk(log[p], log[..p])
  }

  /** A success keeps its barrier. */
  predicate HeldOk(log: seq<LogEvent>, held: set<Key>) {
    forall p :: 0 <= p < |log| && log[p].Answered? && log[p].ok ==> Key(log[p].id, log[p].op) in held
  }

  predicate NamesOk(log: seq<LogEvent>, bs: seq<Branch>) {
    forall p :: 0 <= p < |log| && log[p].Answered? ==> log[p].index < |bs| && log[p].id == bs[log[p].index].id
  }

  /** The barrier was claimed and no call for it succeeded. */
  predicate Claimed(s: State, key: Key) {
    && key in s.held
    && forall p :: 0 <= p < |s.log| && s.log[p].Answered? && s.log[p].ok ==> Key(s.log[p].id, s.log[p].op) != key
  }

  predicate Backed(log: seq<LogEvent>, bs: seq<Branch>) {
    forall i: nat :: i < |bs| && bs[i].status.Succeeded? ==> ActionOk(log, i)
  }

  /** Compensated, or without a compensation to call. */
  predicate Compensated(s: State, i: nat)
    requires i < |s.stored.branches|
  {
    CompensationOk(s.log, i) || s.stored.branches[i].compensate.None?
  }

  predicate Within(s: State) {
    forall i :: i in s.recorded ==> i < |s.stored.branches|
  }

  predicate Covers(s: State, bs: seq<Branch>)
    requires Within(s)
  {
    && |bs| == |s.stored.branches|
    && forall i :: i in s.recorded ==> Owed(bs[i]) || Compensated(s, i)
  }

  predicate Copy(s: State, tx: Transaction)
    requires Within(s)
  {
    SameDefinitions(tx.branches, s.stored.branches) && Backed(s.log, tx.branches) && Covers(s, tx.branches)
  }

  predicate NoneOwed(bs: seq<Branch>, k: nat) {
    forall i: nat :: k <= i < |bs| ==> !Owed(bs[i])
  }

  predicate DoneBelow(bs: seq<Branch>, k: nat) {
    forall i: nat :: i < |bs| && i < k ==> bs[i].status.Succeeded?
  }

  predicate NoneCompensating(bs: seq<Branch>) {
    forall i: nat :: i < |bs| ==> !bs[i].status.Compensating?
  }

  predicate StatusOk(tx: Transaction) {
    && !tx.status.Trying? && !tx.status.Prepared?
    && (GoesForward(tx.status) ==> NoneCompensating(tx.branches))
    && (tx.status.Succeeded? ==> DoneBelow(tx.branches, |tx.branches|))
    && (tx.status.Aborted? ==> NoneOwed(tx.branches, 0))
  }

  predicate Going(s: State, tx: Transaction, k: nat)
    requires Within(s)
  {
    && Copy(s, tx) && tx.status.Succeeding? && NoneCompensating(tx.branches)
    && k <= |tx.branches| && DoneBelow(tx.branches, k) && GoesForward(s.stored.status)
  }

  predicate Unwinding(s: State, tx: Transaction, k: nat)
    requires Within(s)
  {
    && Copy(s, tx) && tx.status.Aborting? && k <= |tx.branches| && NoneOwed(tx.branches, k)
    && !s.stored.status.IsTerminal()
  }

  predicate CallOk(s: State, tx: Transaction, i: nat, op: Operation, call: Call)
    requires i < |tx.branches|
  {
    if call == Replied(true) then AnsweredOk(s.log, op, i) else Claimed(s, KeyAt(tx.branches, i, op))
  }

  predicate WorkerOk(s: State, wk: Worker)
    requires Within(s)
  {
    match wk
    case Idle => true
    case Persisting(tx, next) =>
      && Copy(s, tx) && StatusOk(tx) && !s.stored.status.IsTerminal()
      && (next.Forward? ==> Going(s, tx, next.k))
      && (next.EnterAbort? ==> tx.status.Aborting? && GoesForward(s.stored.status))
    case AtAction(tx, k) => Going(s, tx, k)
    case ActionCall(tx, k, call) =>
      Going(s, tx, k) && k < |tx.branches| && tx.branches[k].status.Running? && CallOk(s, tx, k, Action, call)
    case AtCompensation(tx, k) => Unwinding(s, tx, k)
    case CompensationCall(tx, k, call) =>
      && Unwinding(s, tx, k) && k > 0 && tx.branches[k - 1].status.Compensating?
      && CallOk(s, tx, k - 1, Compensate, call)
  }

  /** A successful action is stored or about to be, unless a stop lost it. */
  ghost predicate AllStored(s: State) {
    forall i: nat :: ActionOk(s.log, i) ==> i in s.recorded || i in s.lost || Holding(s.worker, i)
  }

  ghost predicate Inv(s: State) {
    && Within(s) && Copy(s, s.stored) && StatusOk(s.stored)
    && LogOk(s.log) && HeldOk(s.log, s.held) && NamesOk(s.log, s.stored.branches)
    && WorkerOk(s, s.worker)
    && AllStored(s)
  }

  // ---------------------------------------------------------------------
  // Growing the log

  lemma OkAppend(log: seq<LogEvent>, e: LogEvent)
    ensures forall op, i: nat :: AnsweredOk(log + [e], op, i) <==>
              AnsweredOk(log, op, i) || (e.Answered? && e.ok && e.op == op && e.index == i)
  {
    var more := log + [e];
    forall op, i: nat ensures AnsweredOk(more, op, i) <==>
      AnsweredOk(log, op, i) || (e.Answered? && e.ok && e.op == op && e.index == i) {
      if AnsweredOk(log, op, i) {
        var p :| 0 <= p < |log| && log[p].Answered? && log[p].op == op && log[p].index == i && log[p].ok;
        assert more[p] == log[p];
      }
      if e.Answered? && e.ok && e.op == op && e.index == i { assert more[|log|] == e; }
    }
  }

  lemma LogAppend(log: seq<LogEvent>, e: LogEvent)
    requires LogOk(log) && EventOk(e, log)
    ensures LogOk(log + [e])
  {
    var more := log + [e];
    forall p | 0 <= p < |more| ensures EventOk(more[p], more[..p]) {
      if p < |log| { assert more[..p] == log[..p]; } else { assert more[..p] == log; }
    }
  }

  // ---------------------------------------------------------------------
  // Edits of the copy

  lemma EditOne(s: State, tx: Transaction, i: nat, b: Branch)
    requires Within(s) && Copy(s, tx) && i < |tx.branches| && Definition(b) == Definition(tx.branches[i])
    requires b.status.Succeeded? ==> ActionOk(s.log, i)
    requires i in s.recorded && Owed(tx.branches[i]) ==> Owed(b) || Compensated(s, i)
    ensures Copy(s, tx.(branches := tx.branches[i := b]))
  {
  }

  lemma BeginKeeps(s: State, request: Request)
    requires Inv(s) && s.worker.Idle?
    ensures Inv(s.(worker := BeginRequest(s.stored, request)))
  {
  }

  lemma AcceptCopy(s: State, tx: Transaction, time: nat)
    requires Inv(s) && Copy(s, tx)
    ensures var a := Accept(s, tx, time); Within(a) && Copy(a, a.stored) && Copy(a, tx)
  {
    var a := Accept(s, tx, time);
    OkAppend(s.log, Stored(tx.status));
    forall i | i in a.recorded ensures i < |a.stored.branches| && (Owed(tx.branches[i]) || Compensated(a, i)) {
      if i in s.recorded {
        assert Owed(tx.branches[i]) || Compensated(s, i);
        assert Definition(tx.branches[i]) == Definition(s.stored.branches[i]);
      }
    }
  }

  lemma PersistKeeps(s: State, time: nat)
    requires Inv(s)
    ensures Inv(PersistStep(s, time))
  {
    if s.worker.Persisting? {
      var tx := s.worker.tx;
      var a, s' := Accept(s, tx, time), PersistStep(s, time);
      AcceptCopy(s, tx, time);
      OkAppend(s.log, Stored(tx.status));
      LogAppend(s.log, Stored(tx.status));
    }
  }

  // ---------------------------------------------------------------------
  // Passes

  lemma ActionClaimed(s: State)
    requires Inv(s) && s.worker.AtAction? && s.worker.k < |s.worker.tx.branches|
    requires !s.worker.tx.branches[s.worker.k].status.Succeeded?
    requires KeyAt(s.worker.tx.branches, s.worker.k, Action) !in s.held
    ensures Inv(AdvanceAction(s, s.worker.tx, s.worker.k))
  {
    var tx, k := s.worker.tx, s.worker.k;
    var s' := AdvanceAction(s, tx, k);
    EditOne(s, tx, k, StartRunning(tx.branches[k]));
  }

  lemma AdvanceActionKeeps(s: State)
    requires Inv(s) && s.worker.AtAction?
    ensures Inv(AdvanceAction(s, s.worker.tx, s.worker.k))
  {
    var tx, k := s.worker.tx, s.worker.k;
    if k == |tx.branches| {
    } else if tx.branches[k].status.Succeeded? {
    } else if KeyAt(tx.branches, k, Action) in s.held {
    } else {
      ActionClaimed(s);
    }
  }

  lemma ActionDone(s: State, retryAt: nat)
    requires Inv(s) && s.worker.ActionCall? && s.worker.call == Replied(true)
    ensures Inv(FinishAction(s, s.worker.tx, s.worker.k, true, retryAt))
  {
  }

  lemma ExhaustOk(s: State, tx: Transaction, k: nat, retryAt: nat)
    requires Within(s) && Copy(s, tx) && k < |tx.branches|
    ensures Copy(s, Exhaust(tx, k, retryAt))
  {
  }

  lemma ActionFailed(s: State, retryAt: nat)
    requires Inv(s) && s.worker.ActionCall? && s.worker.call == Replied(false)
    ensures Inv(FinishAction(s, s.worker.tx, s.worker.k, false, retryAt))
  {
    var tx, k := s.worker.tx, s.worker.k;
    var s' := FinishAction(s, tx, k, false, retryAt);
    if tx.branches[k].attempts < MaxAttempts(tx.options) {
      EditOne(s, tx, k, tx.branches[k].(status := BranchStatus.Failed, nextRetry := Some(retryAt)));
    } else {
      ExhaustOk(s, tx, k, retryAt);
    }
  }

  /** Settling or marking branch i keeps the pass on course. */
  lemma UnwindEdit(s: State, tx: Transaction, i: nat, b: Branch)
    requires Within(s) && Unwinding(s, tx, i + 1) && i < |tx.branches| && Definition(b) == Definition(tx.branches[i])
    requires !b.status.Succeeded? && (i in s.recorded && Owed(tx.branches[i]) ==> Owed(b) || Compensated(s, i))
    ensures Unwinding(s, tx.(branches := tx.branches[i := b]), i + 1)
    ensures !Owed(b) ==> Unwinding(s, tx.(branches := tx.branches[i := b]), i)
  {
    EditOne(s, tx, i, b);
  }

  predicate AtBranch(s: State, tx: Transaction, i: nat) {
    s.worker == AtCompensation(tx, i + 1) && i < |tx.branches|
  }

  lemma CompensationBlocked(s: State, tx: Transaction, i: nat)
    requires Inv(s) && AtBranch(s, tx, i) && Owed(tx.branches[i])
    ensures Inv(s.(worker := Persisting(WithStatus(tx, i, BranchStatus.Compensating), Return)))
  {
  }

  lemma CompensationPassed(s: State, tx: Transaction, i: nat)
    requires Inv(s) && AtBranch(s, tx, i) && !Owed(tx.branches[i])
    ensures Inv(s.(worker := AtCompensation(tx, i)))
    ensures Inv(s.(worker := AtCompensation(WithStatus(tx, i, BranchStatus.Skipped), i)))
  {
    UnwindEdit(s, tx, i, tx.branches[i].(status := BranchStatus.Skipped));
  }

  lemma NothingToCall(s: State, tx: Transaction, i: nat)
    requires Inv(s) && AtBranch(s, tx, i) && tx.branches[i].compensate.None?
    ensures Inv(s.(held := s.held + {KeyAt(tx.branches, i, Compensate)},
                   worker := AtCompensation(Put(tx, i, BranchStatus.Skipped, None), i)))
  {
    var next := Put(tx, i, BranchStatus.Skipped, None);
    var s' := s.(held := s.held + {KeyAt(tx.branches, i, Compensate)}, worker := AtCompensation(next, i));
    assert Definition(tx.branches[i]) == Definition(s.stored.branches[i]);
    UnwindEdit(s, tx, i, next.branches[i]);
  }

  lemma CompensationClaimed(s: State, tx: Transaction, i: nat, b: Branch)
    requires Inv(s) && AtBranch(s, tx, i) && KeyAt(tx.branches, i, Compensate) !in s.held
    requires Definition(b) == Definition(tx.branches[i]) && b.status.Compensating?
    ensures Inv(s.(held := s.held + {KeyAt(tx.branches, i, Compensate)},
                   worker := CompensationCall(tx.(branches := tx.branches[i := b]), i + 1, Spawned)))
  {
  }

  lemma CompensationKeeps(s: State, tx: Transaction, i: nat)
    requires Inv(s) && AtBranch(s, tx, i)
    ensures Inv(AdvanceCompensation(s, tx, i + 1))
  {
    var b := tx.branches[i];
    if !Owed(b) { CompensationPassed(s, tx, i);
    } else if KeyAt(tx.branches, i, Compensate) in s.held { CompensationBlocked(s, tx, i);
    } else if b.compensate.None? { NothingToCall(s, tx, i);
    } else { CompensationClaimed(s, tx, i, StartCompensating(b)); }
  }

  lemma CompensationDone(s: State, tx: Transaction, k: nat)
    requires Inv(s) && s.worker == CompensationCall(tx, k, Replied(true))
    ensures Inv(s.(worker := AtCompensation(Put(tx, k - 1, BranchStatus.Skipped, None), k - 1)))
  {
    var next := Put(tx, k - 1, BranchStatus.Skipped, None);
    UnwindEdit(s, tx, k - 1, next.branches[k - 1]);
  }

  lemma CompensationFailed(s: State, tx: Transaction, k: nat, retryAt: nat)
    requires Inv(s) && s.worker == CompensationCall(tx, k, Replied(false))
    ensures Inv(FinishCompensation(s, tx, k, false, retryAt))
  {
    var next := Put(tx, k - 1, BranchStatus.Compensating, Some(retryAt));
    var s' := FinishCompensation(s, tx, k, false, retryAt);
    UnwindEdit(s, tx, k - 1, next.branches[k - 1]);
  }

  lemma AdvanceKeeps(s: State, retryAt: nat)
    requires Inv(s)
    ensures Inv(AdvanceStep(s, retryAt))
  {
    match s.worker
    case AtAction(_, _) => AdvanceActionKeeps(s);
    case ActionCall(_, _, Replied(ok)) => if ok { ActionDone(s, retryAt); } else { ActionFailed(s, retryAt); }
    case AtCompensation(tx, k) =>
      if k > 0 {
        CompensationKeeps(s, tx, k - 1);
      } else {
      }
    case CompensationCall(tx, k, Replied(ok)) =>
      if ok { CompensationDone(s, tx, k); } else { CompensationFailed(s, tx, k, retryAt); }
    case _ =>
  }

  // ---------------------------------------------------------------------
  // Calls

  predicate Logs(s: State, e: LogEvent, call: Call) {
    Target(s.worker).Some? && s.worker.call != Replied(true) &&
    var (op, i) := Target(s.worker).value;
    || (e.Issued? && e == Issued(op, i, s.worker.tx.branches[i].id, e.at) && call == Open)
    || (e.Answered? && e == Answered(op, i, s.worker.tx.branches[i].id, e.ok) && call == Replied(e.ok))
  }

  lemma CallLog(s: State, e: LogEvent, call: Call)
    requires Inv(s) && Logs(s, e, call)
    ensures LogOk(s.log + [e]) && HeldOk(s.log + [e], s.held) && NamesOk(s.log + [e], s.stored.branches)
  {
    var (op, i) := Target(s.worker).value;
    assert Definition(s.worker.tx.branches[i]) == Definition(s.stored.branches[i]);
    LogAppend(s.log, e);
  }

  lemma CallWorker(s: State, e: LogEvent, call: Call, s': State)
    requires Inv(s) && Logs(s, e, call)
    requires s'.log == s.log + [e] && s'.held == s.held && s'.stored == s.stored && s'.recorded == s.recorded
    ensures WorkerOk(s', s.worker.(call := call)) && Copy(s', s.stored)
  {
    OkAppend(s.log, e);
  }

  lemma CallKeeps(s: State, e: LogEvent, call: Call)
    requires Inv(s) && Logs(s, e, call)
    ensures Inv(s.(log := s.log + [e], worker := s.worker.(call := call)))
  {
    var s' := s.(log := s.log + [e], worker := s.worker.(call := call));
    CallLog(s, e, call);
    CallWorker(s, e, call, s');
  }

  lemma StepKeeps(s: State, e: Event)
    requires Inv(s)
    ensures Inv(Step(s, e))
  {
    match e
    case Begin(request) => if s.worker.Idle? { BeginKeeps(s, request); }
    case Persist(time) => PersistKeeps(s, time);
    case Advance(retryAt) => AdvanceKeeps(s, retryAt);
    case Issue(at) =>
      if Target(s.worker).Some? && s.worker.call == Spawned {
        var (op, i) := Target(s.worker).value;
        CallKeeps(s, Issued(op, i, s.worker.tx.branches[i].id, at), Open);
      }
    case Answer(ok) =>
      if Target(s.worker).Some? && s.worker.call == Open {
        var (op, i) := Target(s.worker).value;
        CallKeeps(s, Answered(op, i, s.worker.tx.branches[i].id, ok), Replied(ok));
      }
    case Crash =>
  }

  lemma {:induction false} ExecKeeps(s: State, es: seq<Event>)
    requires Inv(s)
    ensures Inv(Exec(s, es))
    decreases |es|
  {
    if es != [] {
      StepKeeps(s, es[0]);
      ExecKeeps(Step(s, es[0]), es[1..]);
    }
  }

  // ---------------------------------------------------------------------
  // Whole runs

  lemma SuccessAt(log: seq<LogEvent>, op: Operation, i: nat) returns (q: nat)
    requires AnsweredOk(log, op, i)
    ensures q < |log| && log[q].Answered? && log[q].op == op && log[q].index == i && log[q].ok
  {
    q :| 0 <= q < |log| && log[q].Answered? && log[q].op == op && log[q].index == i && log[q].ok;
  }

  lemma PrefixOk(log: seq<LogEvent>, n: nat, op: Operation, i: nat)
    requires n <= |log| && AnsweredOk(log[..n], op, i)
    ensures AnsweredOk(log, op, i)
  {
  }

  /** Whenever an action is called or answered, the actions that have succeeded are exactly the ones
      declared before it: successes form a prefix, in declaration order, each once. */
  lemma ActionsFormPrefix(s: State, es: seq<Event>, p: nat)
    requires Fresh(s)
    requires p < |Exec(s, es).log| && !Exec(s, es).log[p].Stored? && Exec(s, es).log[p].op == Action
    ensures forall j: nat :: ActionOk(Exec(s, es).log[..p], j) <==> j < Exec(s, es).log[p].index
  {
    ExecKeeps(s, es);
    var log := Exec(s, es).log;
    var before := log[..p];
    assert EventOk(log[p], before);
    forall j: nat | ActionOk(before, j) ensures j < log[p].index {
      if j > log[p].index {
        var q := SuccessAt(before, Action, j);
        assert log[q] == before[q] && before[..q] == log[..q];
        assert EventOk(log[q], log[..q]);
        assert ActionOk(log[..q], log[p].index);
        PrefixOk(before, q, Action, log[p].index);
      }
    }
  }

  /** No action and no compensation succeeds twice, nor is it called again after it succeeded. */
  lemma SucceedsOnce(s: State, es: seq<Event>, p: nat, q: nat)
    requires Fresh(s) && p < q < |Exec(s, es).log|
    requires Exec(s, es).log[p].Answered? && Exec(s, es).log[p].ok && !Exec(s, es).log[q].Stored?
    requires Exec(s, es).log[p].op == Exec(s, es).log[q].op
    ensures Exec(s, es).log[p].index != Exec(s, es).log[q].index
  {
    ExecKeeps(s, es);
    var log := Exec(s, es).log;
    assert EventOk(log[q], log[..q]) && log[..q][p] == log[p];
  }

  /** What the final statuses mean: a stored Succeeded means that every action succeeded; a stored
      Aborted that every branch ever stored as Succeeded was compensated, where it names a
      compensation, and that every branch whose action succeeded was, except those whose success a
      stopped pass lost. */
  lemma FinalStatus(s: State, es: seq<Event>, i: nat)
    requires Fresh(s) && i < |Exec(s, es).stored.branches|
    ensures var end := Exec(s, es);
            && (end.stored.status.Succeeded? ==> ActionOk(end.log, i))
            && (end.stored.status.Aborted? && i in end.recorded ==> Compensated(end, i))
            && (end.stored.status.Aborted? && end.worker.Idle? && ActionOk(end.log, i) && i !in end.lost ==>
                  Compensated(end, i))
  {
    ExecKeeps(s, es);
  }

  /** A final status is never left, and the record never changes again. */
  lemma {:induction false} TerminalIsFinal(s: State, es: seq<Event>)
    requires Inv(s) && s.stored.status.IsTerminal()
    ensures Exec(s, es).stored == s.stored
    decreases |es|
  {
    if es != [] {
      StepKeeps(s, es[0]);
      assert s.worker.Idle?;
      TerminalIsFinal(Step(s, es[0]), es[1..]);
    }
  }
}
