/** What one pass of a sequential Saga leaves when nothing stops it: a start pass whose calls succeed stores
    Succeeded, an abort pass whose calls succeed stores Aborted, exactly when no barrier on the way is
    held; and such a pass always ends. */
module SequentialSagaPasses {
  import opened Core
  import opened Edits
  import opened SequentialSaga

  /** The steps of one pass, without a stop. */
  predicate Quiet(es: seq<Event>) {
    forall k :: 0 <= k < |es| ==> !es[k].Begin? && !es[k].Crash?
  }

  /** No call was answered with failure from this point of the log on. */
  predicate NoFailure(log: seq<LogEvent>, from: nat) {
    forall p :: from <= p < |log| && log[p].Answered? ==> log[p].ok
  }

  lemma {:induction false} LogGrows(s: State, es: seq<Event>)
    ensures s.log <= Exec(s, es).log
    decreases |es|
  {
    if es != [] { LogGrows(Step(s, es[0]), es[1..]); }
  }

  lemma NoFailureBefore(log: seq<LogEvent>, more: seq<LogEvent>, from: nat)
    requires log <= more && NoFailure(more, from)
    ensures NoFailure(log, from)
  {
    assert forall p :: 0 <= p < |log| ==> log[p] == more[p];
  }

  // ---------------------------------------------------------------------
  // What is in the way of a pass

  /** A start pass over bs finds every barrier free from branch k on. */
  predicate GoFree(bs: seq<Branch>, k: nat, held: set<Key>)
    decreases |bs| - k
  {
    k < |bs| ==>
      if bs[k].status.Succeeded? then GoFree(bs, k + 1, held)
      else KeyAt(bs, k, Action) !in held && GoFree(bs, k + 1, held + {KeyAt(bs, k, Action)})
  }

  /** An abort pass over bs, with k branches left, finds every barrier free. */
  predicate UndoFree(bs: seq<Branch>, k: nat, held: set<Key>)
    requires k <= |bs|
  {
    k > 0 ==>
      if !Owed(bs[k - 1]) then UndoFree(bs, k - 1, held)
      else KeyAt(bs, k - 1, Compensate) !in held && UndoFree(bs, k - 1, held + {KeyAt(bs, k - 1, Compensate)})
  }

  /** The branches that a pass has to call. */
  predicate Due(b: Branch, op: Operation) { if op == Action then !b.status.Succeeded? else Owed(b) }

  /** From lo to below hi: no due branch's barrier is held, and no two due branches share one. */
  predicate Unhindered(bs: seq<Branch>, op: Operation, lo: nat, hi: nat, held: set<Key>) {
    hi <= |bs| &&
    (forall i :: lo <= i < hi && Due(bs[i], op) ==> KeyAt(bs, i, op) !in held) &&
    forall i, j :: lo <= i < j < hi && Due(bs[i], op) && Due(bs[j], op) ==> bs[i].id != bs[j].id
  }

  lemma {:induction false} FreeMeans(bs: seq<Branch>, k: nat, held: set<Key>)
    requires k <= |bs|
    ensures GoFree(bs, k, held) <==> Unhindered(bs, Action, k, |bs|, held)
    decreases |bs| - k
  {
    if k < |bs| {
      FreeMeans(bs, k + 1, held);
      FreeMeans(bs, k + 1, held + {KeyAt(bs, k, Action)});
    }
  }

  lemma {:induction false} UndoFreeMeans(bs: seq<Branch>, k: nat, held: set<Key>)
    requires k <= |bs|
    ensures UndoFree(bs, k, held) <==> Unhindered(bs, Compensate, 0, k, held)
  {
    if k > 0 {
      UndoFreeMeans(bs, k - 1, held);
      UndoFreeMeans(bs, k - 1, held + {KeyAt(bs, k - 1, Compensate)});
    }
  }

  lemma {:induction false} FreeSame(a: seq<Branch>, b: seq<Branch>, k: nat, held: set<Key>)
    requires |a| == |b| && forall i: nat :: k <= i < |a| ==> a[i].id == b[i].id && a[i].status == b[i].status
    ensures GoFree(a, k, held) == GoFree(b, k, held)
    decreases |a| - k
  {
    if k < |a| {
      FreeSame(a, b, k + 1, held);
      FreeSame(a, b, k + 1, held + {KeyAt(a, k, Action)});
    }
  }

  lemma {:induction false} UndoFreeSame(a: seq<Branch>, b: seq<Branch>, k: nat, held: set<Key>)
    requires k <= |a| && k <= |b| && forall i: nat :: i < k ==> a[i].id == b[i].id && a[i].status == b[i].status
    ensures UndoFree(a, k, held) == UndoFree(b, k, held)
  {
    if k > 0 {
      UndoFreeSame(a, b, k - 1, held);
      UndoFreeSame(a, b, k - 1, held + {KeyAt(a, k - 1, Compensate)});
    }
  }

  // ---------------------------------------------------------------------
  // The start pass

  predicate GoFits(s: State, open: bool) {
    match s.worker
    case Idle => s.stored.status == if open then TransactionStatus.Succeeded else Succeeding
    case Persisting(tx, Return) => open && tx.status.Succeeded?
    case Persisting(tx, Forward(k)) => tx.status.Succeeding? && GoFree(tx.branches, k, s.held) == open
    case AtAction(tx, k) =>
      tx.status.Succeeding? && s.stored.status.Succeeding? && GoFree(tx.branches, k, s.held) == open
    case ActionCall(tx, k, call) =>
      && tx.status.Succeeding? && s.stored.status.Succeeding? && k < |tx.branches| && call != Replied(false)
      && GoFree(tx.branches, k + 1, s.held) == open
    case _ => false
  }

  lemma GoAdvance(s: State, tx: Transaction, k: nat, open: bool)
    requires GoFits(s, open) && s.worker == AtAction(tx, k)
    ensures GoFits(AdvanceAction(s, tx, k), open)
  {
    var s' := AdvanceAction(s, tx, k);
    if s'.worker.ActionCall? { FreeSame(tx.branches, s'.worker.tx.branches, k + 1, s'.held); }
  }

  lemma GoCall(s: State, e: Event, open: bool, from: nat)
    requires GoFits(s, open) && !e.Begin? && !e.Crash? && from <= |s.log| && NoFailure(Step(s, e).log, from)
    requires s.worker.ActionCall?
    ensures GoFits(Step(s, e), open)
  {
    var s' := Step(s, e);
    var tx, k := s.worker.tx, s.worker.k;
    if e.Advance? && s'.worker.Persisting? { FreeSame(tx.branches, s'.worker.tx.branches, k + 1, s.held); }
    if e.Answer? && s.worker.call == Call.Open { assert s'.log[|s.log|] == Answered(Action, k, tx.branches[k].id, e.ok); }
  }

  lemma GoStep(s: State, e: Event, open: bool, from: nat)
    requires GoFits(s, open) && !e.Begin? && !e.Crash? && from <= |s.log| && NoFailure(Step(s, e).log, from)
    ensures GoFits(Step(s, e), open)
  {
    if s.worker.AtAction? && e.Advance? { GoAdvance(s, s.worker.tx, s.worker.k, open); }
    if s.worker.ActionCall? { GoCall(s, e, open, from); }
  }

  lemma {:induction false} GoRuns(s: State, es: seq<Event>, open: bool, from: nat)
    requires GoFits(s, open) && Quiet(es) && from <= |s.log| && NoFailure(Exec(s, es).log, from)
    ensures GoFits(Exec(s, es), open)
    decreases |es|
  {
    if es != [] {
      var s' := Step(s, es[0]);
      LogGrows(s', es[1..]);
      NoFailureBefore(s'.log, Exec(s, es).log, from);
      GoStep(s, es[0], open, from);
      GoRuns(s', es[1..], open, from);
    }
  }

  /** A start pass that has ended, undisturbed and with no call answered with failure, leaves Succeeded if
      no barrier that it needed was held, and Succeeding if one was. On a Saga that does not go forward
      it changes nothing. */
  lemma StartPassResult(s: State, es: seq<Event>)
    requires s.worker.Idle? && Quiet(es)
    requires var end := Exec(s, [Begin(Start)] + es); end.worker.Idle? && NoFailure(end.log, |s.log|)
    ensures var end, bs := Exec(s, [Begin(Start)] + es), s.stored.branches;
            if s.stored.status.Submitted? || s.stored.status.Succeeding?
            then end.stored.status ==
                 if Unhindered(bs, Action, 0, |bs|, s.held) then TransactionStatus.Succeeded else Succeeding
            else end == s
  {
    var bs := s.stored.branches;
    var s1 := Step(s, Begin(Start));
    assert ([Begin(Start)] + es)[1..] == es;
    if GoesForward(s.stored.status) {
      FreeMeans(bs, 0, s.held);
      GoRuns(s1, es, GoFree(bs, 0, s.held), |s.log|);
    } else {
      StaysIdle(s1, es);
    }
  }

  lemma {:induction false} StaysIdle(s: State, es: seq<Event>)
    requires s.worker.Idle? && Quiet(es)
    ensures Exec(s, es) == s
    decreases |es|
  {
    if es != [] { StaysIdle(Step(s, es[0]), es[1..]); }
  }

  // ---------------------------------------------------------------------
  // The abort pass

  function Undone(open: bool): TransactionStatus { if open then Aborted else Aborting }

  predicate UndoFits(s: State, open: bool) {
    match s.worker
    case Idle => s.stored.status == Undone(open)
    case Persisting(tx, Return) => tx.status == Undone(open)
    case AtCompensation(tx, k) => k <= |tx.branches| && tx.status.Aborting? && UndoFree(tx.branches, k, s.held) == open
    case CompensationCall(tx, k, call) =>
      && 0 < k <= |tx.branches| && tx.status.Aborting? && call != Replied(false)
      && UndoFree(tx.branches, k - 1, s.held) == open
    case _ => false
  }

  lemma UndoPassed(s: State, tx: Transaction, k: nat, open: bool)
    requires s.worker == AtCompensation(tx, k) && 0 < k <= |tx.branches| && UndoFits(s, open)
    ensures UndoFits(AdvanceCompensation(s, tx, k), open)
  {
    var s' := AdvanceCompensation(s, tx, k);
    if s'.worker.AtCompensation? || s'.worker.CompensationCall? {
      UndoFreeSame(tx.branches, s'.worker.tx.branches, k - 1, s'.held);
    }
  }

  lemma UndoStep(s: State, e: Event, open: bool, from: nat)
    requires UndoFits(s, open) && !e.Begin? && !e.Crash? && from <= |s.log| && NoFailure(Step(s, e).log, from)
    ensures UndoFits(Step(s, e), open)
  {
    var s' := Step(s, e);
    match s.worker
    case AtCompensation(tx, k) => if e.Advance? && k > 0 { UndoPassed(s, tx, k, open); }
    case CompensationCall(tx, k, call) =>
      if e.Advance? && s'.worker.AtCompensation? { UndoFreeSame(tx.branches, s'.worker.tx.branches, k - 1, s.held); }
      if e.Answer? && call == Open { assert s'.log[|s.log|] == Answered(Compensate, k - 1, tx.branches[k - 1].id, e.ok); }
    case _ =>
  }

  lemma {:induction false} UndoRuns(s: State, es: seq<Event>, open: bool, from: nat)
    requires UndoFits(s, open) && Quiet(es) && from <= |s.log| && NoFailure(Exec(s, es).log, from)
    ensures UndoFits(Exec(s, es), open)
    decreases |es|
  {
    if es != [] {
      var s' := Step(s, es[0]);
      LogGrows(s', es[1..]);
      NoFailureBefore(s'.log, Exec(s, es).log, from);
      UndoStep(s, es[0], open, from);
      UndoRuns(s', es[1..], open, from);
    }
  }

  /** The same for an abort pass, which leaves Aborted or Aborting. */
  lemma AbortPassResult(s: State, es: seq<Event>)
    requires s.worker.Idle? && Quiet(es)
    requires var end := Exec(s, [Begin(Abort)] + es); end.worker.Idle? && NoFailure(end.log, |s.log|)
    ensures var end, bs := Exec(s, [Begin(Abort)] + es), s.stored.branches;
            if s.stored.status.Submitted? || s.stored.status.Succeeding? || s.stored.status.Aborting?
            then end.stored.status == if Unhindered(bs, Compensate, 0, |bs|, s.held) then Aborted else Aborting
            else end == s
  {
    var bs := s.stored.branches;
    var s1 := Step(s, Begin(Abort));
    assert ([Begin(Abort)] + es)[1..] == es;
    if s1.worker.AtCompensation? {
      UndoFreeMeans(bs, |bs|, s.held);
      UndoRuns(s1, es, UndoFree(bs, |bs|, s.held), |s.log|);
    } else {
      StaysIdle(s1, es);
    }
  }

  // ---------------------------------------------------------------------
  // The whole record that a pass leaves

  function Executed(b: Branch): Branch {
    if b.status.Succeeded? then b
    else b.(status := BranchStatus.Succeeded, attempts := if b.attempts < MAX_U32 then b.attempts + 1 else b.attempts,
            nextRetry := None)
  }

  /** Pending branches are skipped. Those with an action to undo are skipped once they were compensated, one
      attempt later where they name a compensation. Others stay. */
  function Compensated(b: Branch): Branch {
    match b.status
    case Pending => b.(status := BranchStatus.Skipped)
    case Succeeded | Compensating =>
      b.(status := BranchStatus.Skipped, nextRetry := None,
         attempts := if b.compensate.Some? && b.attempts < MAX_U32 then b.attempts + 1 else b.attempts)
    case Running | Failed | Skipped => b
  }

  predicate DoneBelow(start: seq<Branch>, bs: seq<Branch>, k: nat) {
    |bs| == |start| && forall i: nat :: i < |bs| ==> bs[i] == if i < k then Executed(start[i]) else start[i]
  }

  predicate UndoneFrom(start: seq<Branch>, bs: seq<Branch>, k: nat) {
    |bs| == |start| && forall i: nat :: i < |bs| ==> bs[i] == if i >= k then Compensated(start[i]) else start[i]
  }

  predicate RunningAt(start: seq<Branch>, bs: seq<Branch>, k: nat) {
    && |bs| == |start| && k < |bs| && DoneBelow(start, bs[k := start[k]], k) && !start[k].status.Succeeded?
    && bs[k] == StartRunning(start[k])
  }

  predicate UndoingAt(start: seq<Branch>, bs: seq<Branch>, k: nat) {
    && |bs| == |start| && k < |bs| && UndoneFrom(start, bs[k := start[k]], k + 1)
    && Owed(start[k]) && start[k].compensate.Some? && bs[k] == StartCompensating(start[k])
  }

  /** What the record and the worker show during a pass over start. */
  predicate Shows(s: State, start: seq<Branch>) {
    && (s.stored.status.Succeeded? ==> DoneBelow(start, s.stored.branches, |start|))
    && (s.stored.status.Aborted? ==> UndoneFrom(start, s.stored.branches, 0))
    && match s.worker
       case Idle => true
       case Persisting(tx, Return) =>
         && (tx.status.Succeeded? ==> DoneBelow(start, tx.branches, |start|))
         && (tx.status.Aborted? ==> UndoneFrom(start, tx.branches, 0))
       case Persisting(tx, Forward(k)) => tx.status.Succeeding? && DoneBelow(start, tx.branches, k)
       case Persisting(_, EnterAbort) => false
       case AtAction(tx, k) => tx.status.Succeeding? && DoneBelow(start, tx.branches, k)
       case ActionCall(tx, k, call) => tx.status.Succeeding? && RunningAt(start, tx.branches, k) && call != Replied(false)
       case AtCompensation(tx, k) => tx.status.Aborting? && k <= |tx.branches| && UndoneFrom(start, tx.branches, k)
       case CompensationCall(tx, k, call) =>
         tx.status.Aborting? && 0 < k && UndoingAt(start, tx.branches, k - 1) && call != Replied(false)
  }

  lemma ShowsAction(s: State, start: seq<Branch>, tx: Transaction, k: nat)
    requires Shows(s, start) && s.worker == AtAction(tx, k)
    ensures Shows(AdvanceAction(s, tx, k), start)
  {
    var s' := AdvanceAction(s, tx, k);
    if s'.worker.ActionCall? {
      var bs := s'.worker.tx.branches;
      assert bs[k := start[k]] == tx.branches;
    }
  }

  lemma ShowsExecuted(s: State, start: seq<Branch>, tx: Transaction, k: nat, retryAt: nat)
    requires Shows(s, start) && s.worker == ActionCall(tx, k, Replied(true))
    ensures Shows(FinishAction(s, tx, k, true, retryAt), start)
  {
    var bs, before := FinishAction(s, tx, k, true, retryAt).worker.tx.branches, tx.branches[k := start[k]];
    forall i: nat | i < |bs| ensures bs[i] == if i < k + 1 then Executed(start[i]) else start[i] {
      if i != k { assert bs[i] == before[i]; }
    }
  }

  lemma ShowsUndo(s: State, start: seq<Branch>, tx: Transaction, k: nat)
    requires Shows(s, start) && s.worker == AtCompensation(tx, k) && k > 0
    ensures Shows(AdvanceCompensation(s, tx, k), start)
  {
    var s' := AdvanceCompensation(s, tx, k);
    if s'.worker.CompensationCall? {
      var bs := s'.worker.tx.branches;
      assert bs[k - 1 := start[k - 1]] == tx.branches;
    }
  }

  lemma ShowsCompensated(s: State, start: seq<Branch>, tx: Transaction, k: nat, retryAt: nat)
    requires Shows(s, start) && s.worker == CompensationCall(tx, k, Replied(true))
    ensures Shows(FinishCompensation(s, tx, k, true, retryAt), start)
  {
    var bs, before := FinishCompensation(s, tx, k, true, retryAt).worker.tx.branches, tx.branches[k - 1 := start[k - 1]];
    forall i: nat | i < |bs| ensures bs[i] == if i >= k - 1 then Compensated(start[i]) else start[i] {
      if i != k - 1 { assert bs[i] == before[i]; }
    }
  }

  lemma ShowsStep(s: State, e: Event, start: seq<Branch>, from: nat)
    requires Shows(s, start) && !e.Begin? && !e.Crash? && from <= |s.log| && NoFailure(Step(s, e).log, from)
    ensures Shows(Step(s, e), start)
  {
    match e
    case Advance(retryAt) =>
      match s.worker {
        case AtAction(tx, k) => ShowsAction(s, start, tx, k);
        case ActionCall(tx, k, Replied(_)) => ShowsExecuted(s, start, tx, k, retryAt);
        case AtCompensation(tx, k) => if k > 0 { ShowsUndo(s, start, tx, k); }
        case CompensationCall(tx, k, Replied(_)) => ShowsCompensated(s, start, tx, k, retryAt);
        case _ =>
      }
    case Answer(ok) =>
      if Step(s, e) != s { assert Step(s, e).log[|s.log|].ok; }
    case _ =>
  }

  lemma {:induction false} ShowsRuns(s: State, es: seq<Event>, start: seq<Branch>, from: nat)
    requires Shows(s, start) && Quiet(es) && from <= |s.log| && NoFailure(Exec(s, es).log, from)
    ensures Shows(Exec(s, es), start)
    decreases |es|
  {
    if es != [] {
      var s' := Step(s, es[0]);
      LogGrows(s', es[1..]);
      NoFailureBefore(s'.log, Exec(s, es).log, from);
      ShowsStep(s, es[0], start, from);
      ShowsRuns(s', es[1..], start, from);
    }
  }

  /** The branches that an undisturbed pass leaves, if no call fails and it reaches its final status: every
      branch executed, or every branch compensated. */
  lemma PassLeaves(s: State, request: Request, es: seq<Event>)
    requires s.worker.Idle? && (request == Start || request == Abort) && Quiet(es)
    requires var end := Exec(s, [Begin(request)] + es); end.worker.Idle? && NoFailure(end.log, |s.log|)
    requires !s.stored.status.IsTerminal()
    ensures var end, bs := Exec(s, [Begin(request)] + es).stored, s.stored.branches;
            && (end.status.Succeeded? || end.status.Aborted? ==> |end.branches| == |bs|)
            && (end.status.Succeeded? ==> forall i :: 0 <= i < |bs| ==> end.branches[i] == Executed(bs[i]))
            && (end.status.Aborted? ==> forall i :: 0 <= i < |bs| ==> end.branches[i] == Compensated(bs[i]))
  {
    assert ([Begin(request)] + es)[1..] == es;
    ShowsRuns(Step(s, Begin(request)), es, s.stored.branches, |s.log|);
  }

  // ---------------------------------------------------------------------
  // A failed compensation

  /** The pass failed on branch i, and says so. */
  predicate FailedOn(s: State, tx: Transaction, i: nat) {
    && tx.status.Aborting? && i < |tx.branches| && KeyAt(tx.branches, i, Compensate) !in s.held
    && tx.branches[i].status.Compensating? && tx.branches[i].nextRetry.Some?
  }

  predicate Fails(s: State, i: nat) {
    match s.worker
    case CompensationCall(tx, k, Replied(false)) => tx.status.Aborting? && k == i + 1 <= |tx.branches|
    case Persisting(tx, Return) => FailedOn(s, tx, i)
    case Idle => FailedOn(s, s.stored, i)
    case _ => false
  }

  lemma {:induction false} FailureRuns(s: State, es: seq<Event>, i: nat)
    requires Fails(s, i) && Quiet(es)
    ensures Fails(Exec(s, es), i)
    decreases |es|
  {
    if es != [] { FailureRuns(Step(s, es[0]), es[1..], i); }
  }

  /** A compensation that fails ends its pass: Aborting is stored, the branch stays to be compensated from
      its retry time on, and its barrier is free. */
  lemma FailedCompensationWaits(s: State, es: seq<Event>, i: nat)
    requires Target(s.worker) == Some((Compensate, i)) && s.worker.call == Call.Open && s.worker.tx.status.Aborting?
    requires Quiet(es) && Exec(s, [Answer(false)] + es).worker.Idle?
    ensures FailedOn(Exec(s, [Answer(false)] + es), Exec(s, [Answer(false)] + es).stored, i)
  {
    assert ([Answer(false)] + es)[1..] == es;
    FailureRuns(Step(s, Answer(false)), es, i);
  }

  // ---------------------------------------------------------------------
  // Every pass ends

  predicate Live(wk: Worker) {
    match wk
    case AtAction(tx, k) => k <= |tx.branches|
    case ActionCall(tx, k, call) => k < |tx.branches| && call != Replied(false)
    case AtCompensation(tx, k) => k <= |tx.branches|
    case CompensationCall(tx, k, call) => 0 < k <= |tx.branches| && call != Replied(false)
    case Persisting(tx, Forward(k)) => k <= |tx.branches|
    case _ => true
  }

  function CallLeft(call: Call): nat { if call == Spawned then 2 else if call == Open then 1 else 0 }

  /** An upper bound for the steps that are left. */
  function StepsLeft(wk: Worker): int {
    match wk
    case Idle => 0
    case Persisting(tx, Return) => 1
    case Persisting(tx, Forward(k)) => 5 * (|tx.branches| - k) + 4
    case Persisting(tx, EnterAbort) => 5 * |tx.branches| + 4
    case AtAction(tx, k) => 5 * (|tx.branches| - k) + 3
    case ActionCall(tx, k, call) => 5 * (|tx.branches| - k) + CallLeft(call)
    case AtCompensation(tx, k) => 5 * k + 3
    case CompensationCall(tx, k, call) => 5 * k + CallLeft(call)
  }

  function NextEvent(wk: Worker): Event {
    match wk
    case Persisting(_, _) => Persist(0)
    case ActionCall(_, _, Spawned) => Issue(0)
    case ActionCall(_, _, Open) => Answer(true)
    case CompensationCall(_, _, Spawned) => Issue(0)
    case CompensationCall(_, _, Open) => Answer(true)
    case _ => Advance(0)
  }

  predicate Helps(s: State, s': State) {
    Live(s'.worker) && 0 <= StepsLeft(s'.worker) < StepsLeft(s.worker) && NoFailure(s'.log, |s.log|)
  }

  lemma ForwardHelps(s: State)
    requires Live(s.worker) && (s.worker.AtAction? || s.worker.ActionCall?)
    ensures Helps(s, Step(s, NextEvent(s.worker)))
  {
  }

  lemma BackwardHelps(s: State)
    requires Live(s.worker) && (s.worker.AtCompensation? || s.worker.CompensationCall?)
    ensures Helps(s, Step(s, NextEvent(s.worker)))
  {
  }

  lemma NextEventHelps(s: State)
    requires Live(s.worker) && !s.worker.Idle?
    ensures Helps(s, Step(s, NextEvent(s.worker)))
  {
    if s.worker.AtAction? || s.worker.ActionCall? { ForwardHelps(s); }
    if s.worker.AtCompensation? || s.worker.CompensationCall? { BackwardHelps(s); }
  }

  /** Whatever point a pass is at, unless a call has just failed, it can be run to its end with every call
      answered with success. */
  lemma {:induction false} PassEnds(s: State) returns (es: seq<Event>)
    requires Live(s.worker)
    ensures Quiet(es) && Exec(s, es).worker.Idle? && NoFailure(Exec(s, es).log, |s.log|)
    decreases StepsLeft(s.worker)
  {
    if s.worker.Idle? {
      es := [];
    } else {
      var e := NextEvent(s.worker);
      NextEventHelps(s);
      var rest := PassEnds(Step(s, e));
      es := [e] + rest;
      assert es[1..] == rest;
      LogGrows(Step(s, e), rest);
      var s', log := Step(s, e), Exec(s, es).log;
      forall p | |s.log| <= p < |log| && log[p].Answered? ensures log[p].ok {
        if p < |s'.log| { assert log[p] == s'.log[p]; }
      }
    }
  }

  /** Every Saga whose ids differ, as submitted, has a run of one pass that stores Succeeded. */
  lemma CanSucceed(s: State) returns (es: seq<Event>)
    requires Fresh(s) && forall i, j :: 0 <= i < j < |s.stored.branches| ==> s.stored.branches[i].id != s.stored.branches[j].id
    ensures Quiet(es) && Exec(s, [Begin(Start)] + es).stored.status.Succeeded?
  {
    es := PassEnds(Step(s, Begin(Start)));
    assert ([Begin(Start)] + es)[1..] == es;
    StartPassResult(s, es);
  }
}
