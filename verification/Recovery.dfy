/** The recovery tick: which operation it starts for a listed transaction and when, what that means for
    deadlines, and where a tick ends. Workflows are not part of this model. */
module Recovery {
  import opened Core
  import opened Edits
  import T = TwoPhase
  import TS = TwoPhaseSafety
  import D = TwoPhaseDecisions
  import R = TwoPhaseRetries
  import M = Message
  import Q = SequentialSaga

  datatype Job =
    | StartSaga | AbortSaga
    | PrepareTcc | ConfirmTcc | CancelTcc
    | PrepareXa | CommitXa | RollbackXa
    | PrepareMessage | DispatchMessage | AbortMessage

  // ---------------------------------------------------------------------
  // The choice

  function SagaChoice(tx: Transaction, now: nat): Option<Job> {
    if tx.status.IsTerminal() then None
    else if Expired(tx, now) then Some(AbortSaga)
    else if !RetriesDue(tx, now) then None
    else match tx.status
      case Submitted => Some(StartSaga)
      case Succeeding => Some(StartSaga)
      case Aborting => Some(AbortSaga)
      case _ => None
  }

  function TwoPhaseJob(kind: TransactionKind, request: T.Request): Option<Job> {
    match request
    case Prepare => Some(if kind.Tcc? then PrepareTcc else PrepareXa)
    case Complete => Some(if kind.Tcc? then ConfirmTcc else CommitXa)
    case Undo => Some(if kind.Tcc? then CancelTcc else RollbackXa)
    case _ => None
  }

  function MessageJob(request: M.Request): Option<Job> {
    match request
    case Prepare => Some(PrepareMessage)
    case Dispatch => Some(DispatchMessage)
    case Abort => Some(AbortMessage)
    case _ => None
  }

  /** What one tick starts for a transaction, given the clock. */
  function Choice(tx: Transaction, now: nat): Option<Job> {
    match tx.kind
    case Saga => SagaChoice(tx, now)
    case Tcc =>
      var request := T.RecoveryChoice(tx, now);
      if request.Some? then TwoPhaseJob(tx.kind, request.value) else None
    case Xa =>
      var request := T.RecoveryChoice(tx, now);
      if request.Some? then TwoPhaseJob(tx.kind, request.value) else None
    case Message =>
      var request := M.RecoveryChoice(tx, now);
      if request.Some? then MessageJob(request.value) else None
    case Workflow => None
  }

  /** The deadline has passed. A timeout of 0 has passed even on a clock that runs behind. */
  predicate Overdue(tx: Transaction, now: nat) {
    tx.timeout.Some? && (tx.createdAt + tx.timeout.value <= now || tx.timeout.value == 0)
  }

  /** Every branch that failed, runs or is being compensated may be tried again. */
  predicate AllDue(tx: Transaction, now: nat) {
    forall i :: 0 <= i < |tx.branches| ==> MayRun(tx.branches[i], now)
  }

  predicate MayRun(b: Branch, now: nat) {
    match b.status
    case Failed | Running | Compensating => b.nextRetry.None? || b.nextRetry.value <= now
    case Pending | Succeeded | Skipped => true
  }

  predicate Finished(status: TransactionStatus) {
    match status
    case Succeeded | Aborted | Failed => true
    case Submitted | Trying | Prepared | Succeeding | Aborting => false
  }

  /** A decided Message whose time of delivery has not come; sums beyond 64 bits saturate. */
  predicate Delayed(tx: Transaction, now: nat) {
    && tx.kind.Message? && tx.status.Succeeding? && tx.options.delay.Some?
    && now < tx.createdAt + tx.options.delay.value && now < MAX_U64
  }

  function OverdueJob(tx: Transaction): Job
    requires !tx.kind.Workflow?
  {
    match tx.kind
    case Saga => AbortSaga
    case Tcc => CancelTcc
    case Xa => if tx.status.Succeeding? then CommitXa else RollbackXa
    case Message => if tx.status.Succeeding? then DispatchMessage else AbortMessage
  }

  function NextJob(tx: Transaction): Option<Job> {
    match (tx.kind, tx.status)
    case (Saga, Submitted) => Some(StartSaga)
    case (Saga, Succeeding) => Some(StartSaga)
    case (Saga, Aborting) => Some(AbortSaga)
    case (Tcc, Submitted) => Some(PrepareTcc)
    case (Tcc, Trying) => Some(PrepareTcc)
    case (Tcc, Succeeding) => Some(ConfirmTcc)
    case (Tcc, Aborting) => Some(CancelTcc)
    case (Xa, Submitted) => Some(PrepareXa)
    case (Xa, Succeeding) => Some(CommitXa)
    case (Xa, Aborting) => Some(RollbackXa)
    case (Message, Submitted) => Some(PrepareMessage)
    case (Message, Succeeding) => Some(DispatchMessage)
    case _ => None
  }

  lemma DueMeans(tx: Transaction, now: nat)
    ensures Expired(tx, now) <==> Overdue(tx, now)
    ensures RetriesDue(tx, now) <==> AllDue(tx, now)
  {
    if RetriesDue(tx, now) {
      forall i | 0 <= i < |tx.branches| ensures MayRun(tx.branches[i], now) { assert tx.branches[i] in tx.branches; }
    }
    if AllDue(tx, now) {
      forall b | b in tx.branches && Unfinished(b) ensures b.nextRetry.None? || b.nextRetry.value <= now {
        var i :| 0 <= i < |tx.branches| && tx.branches[i] == b;
        assert MayRun(tx.branches[i], now);
      }
    }
  }

  /** A tick leaves finished transactions and delayed Messages alone. At or after its deadline any other
      transaction is aborted, but for a decided XA or Message, which is completed. Before the deadline,
      once its retries are due, it goes on in the direction of its status; a Prepared one waits. */
  lemma TickChooses(tx: Transaction, now: nat)
    requires !tx.kind.Workflow?
    ensures Choice(tx, now) ==
            if Finished(tx.status) || Delayed(tx, now) then None
            else if Overdue(tx, now) then Some(OverdueJob(tx))
            else if AllDue(tx, now) then NextJob(tx)
            else None
  {
    DueMeans(tx, now);
  }

  // ---------------------------------------------------------------------
  // Where a tick ends

  /** The operation accepts a transaction of this status. */
  predicate Accepts(job: Job, status: TransactionStatus) {
    match job
    case StartSaga => status.Submitted? || status.Succeeding? || status.Succeeded?
    case AbortSaga => status.Submitted? || status.Succeeding? || status.Aborting? || status.Aborted?
    case PrepareTcc => status.Submitted? || status.Trying? || status.Prepared?
    case ConfirmTcc => status.Prepared? || status.Succeeding? || status.Succeeded?
    case CancelTcc => status.Submitted? || status.Trying? || status.Prepared? || status.Aborting? || status.Aborted?
    case PrepareXa => status.Submitted? || status.Prepared?
    case CommitXa => status.Prepared? || status.Succeeding? || status.Succeeded?
    case RollbackXa => status.Submitted? || status.Prepared? || status.Aborting? || status.Aborted?
    case PrepareMessage => status.Submitted? || status.Prepared?
    case DispatchMessage => status.Submitted? || status.Prepared? || status.Succeeding? || status.Succeeded?
    case AbortMessage => status.Submitted? || status.Prepared? || status.Aborted?
  }

  /** Accepted is what starts a pass or stores something, and what was already done. */
  lemma AcceptsMeans(tx: Transaction)
    ensures var status := tx.status;
            && (Accepts(StartSaga, status) <==> !Q.BeginRequest(tx, Q.Start).Idle? || status.Succeeded?)
            && (Accepts(AbortSaga, status) <==> !Q.BeginRequest(tx, Q.Abort).Idle? || status.Aborted?)
            && (Accepts(PrepareMessage, status) <==> !M.BeginRequest(tx, M.Prepare).Idle? || status.Prepared?)
            && (Accepts(DispatchMessage, status) <==> !M.BeginRequest(tx, M.Dispatch).Idle? || status.Succeeded?)
            && (Accepts(AbortMessage, status) <==> !M.BeginRequest(tx, M.Abort).Idle? || status.Aborted?)
    ensures var status := tx.status;
            tx.kind.Tcc? ==>
              && (Accepts(PrepareTcc, status) <==> !T.BeginRequest(tx, T.Prepare).Idle? || status.Prepared?)
              && (Accepts(ConfirmTcc, status) <==> !T.BeginRequest(tx, T.Request.Complete).Idle? || status.Succeeded?)
              && (Accepts(CancelTcc, status) <==> !T.BeginRequest(tx, T.Undo).Idle? || status.Aborted?)
    ensures var status := tx.status;
            tx.kind.Xa? ==>
              && (Accepts(PrepareXa, status) <==> !T.BeginRequest(tx, T.Prepare).Idle? || status.Prepared?)
              && (Accepts(CommitXa, status) <==> !T.BeginRequest(tx, T.Request.Complete).Idle? || status.Succeeded?)
              && (Accepts(RollbackXa, status) <==> !T.BeginRequest(tx, T.Undo).Idle? || status.Aborted?)
  {
  }

  /** The statuses that a transaction of this kind goes through. */
  predicate Natural(kind: TransactionKind, status: TransactionStatus) {
    match kind
    case Saga => !status.Trying? && !status.Prepared?
    case Tcc => true
    case Xa => !status.Trying?
    case Message => !status.Trying? && !status.Aborting?
    case Workflow => !status.Trying?
  }

  /** A confirmed TCC transaction past its deadline. */
  predicate Wedged(tx: Transaction, now: nat) { tx.kind.Tcc? && tx.status.Succeeding? && Overdue(tx, now) }

  /** The one choice that its own operation refuses: at the deadline a TCC transaction is cancelled even if
      it is being confirmed. */
  lemma RefusedIff(tx: Transaction, now: nat)
    requires !tx.kind.Workflow? && Natural(tx.kind, tx.status)
    ensures Choice(tx, now).Some? && !Accepts(Choice(tx, now).value, tx.status) <==> Wedged(tx, now)
  {
    TickChooses(tx, now);
  }

  /** Below n every operation that the tick chose was started, and went through. */
  predicate AllStarted(listed: seq<Transaction>, now: nat, broken: nat -> bool, started: seq<nat>, n: nat) {
    forall i: nat :: i < n && i < |listed| && Choice(listed[i], now).Some? ==>
      i in started && !Wedged(listed[i], now) && !broken(i)
  }

  /** tick_recover_once over an unchanging listing, up to the first operation that fails. Besides refusals,
      `broken` tells which operations fail. A TCC transaction that is being confirmed at its deadline ends
      every tick that comes to it, and nothing listed after it is recovered. */
  method Tick(listed: seq<Transaction>, now: nat, broken: nat -> bool) returns (started: seq<nat>, ok: bool)
    requires forall i :: 0 <= i < |listed| ==> !listed[i].kind.Workflow? && Natural(listed[i].kind, listed[i].status)
    ensures Increasing(started, |listed|)
    ensures forall i :: i in started ==> Choice(listed[i], now).Some?
    ensures ok ==> AllStarted(listed, now, broken, started, |listed|)
    ensures !ok ==> started != []
    ensures !ok ==> Wedged(listed[started[|started| - 1]], now) || broken(started[|started| - 1])
    ensures !ok ==> AllStarted(listed, now, broken, started, started[|started| - 1])
    ensures forall k: nat :: k < |listed| && Wedged(listed[k], now) ==> !ok && forall i :: i in started ==> i <= k
  {
    started := [];
    for k := 0 to |listed|
      invariant Increasing(started, k)
      invariant forall i :: i in started ==> i < k && Choice(listed[i], now).Some?
      invariant AllStarted(listed, now, broken, started, k)
      invariant forall i: nat :: i < k ==> !Wedged(listed[i], now)
    {
      TickChooses(listed[k], now);
      var job := Choice(listed[k], now);
      if job.Some? {
        RefusedIff(listed[k], now);
        started := started + [k];
        if !Accepts(job.value, listed[k].status) || broken(k) { return started, false; }
      }
    }
    return started, true;
  }

  /** Such a transaction comes about when the commit decision of a prepared one is stored and its
      confirms take until the deadline. */
  lemma WedgeIsReachable(s: T.State)
    requires s.worker.Idle? && s.stored.kind.Tcc? && s.stored.status.Prepared? && s.stored.timeout.Some?
    ensures var end := T.Exec(s, [T.Begin(T.ScheduleSubmit), T.Persist(0)]);
            end.worker.Idle? && Wedged(end.stored, s.stored.createdAt + s.stored.timeout.value)
  {
    var a, b := T.Begin(T.ScheduleSubmit), T.Persist(0);
    var t := T.Step(T.Step(s, a), b);
    assert [a, b][1..] == [b] && [b][1..] == [] && T.Exec(T.Step(s, a), [b]) == T.Exec(t, []);
  }

  // ---------------------------------------------------------------------
  // Deadlines over whole runs of TCC and XA

  predicate SameTerms(a: Transaction, b: Transaction) { a.createdAt == b.createdAt && a.timeout == b.timeout }

  predicate WorkerTerms(wk: T.Worker, tx: Transaction) { wk.Idle? || (SameTerms(wk.tx, tx) && !wk.tx.status.Failed?) }

  /** Recovery has not picked an undo before the record was aborting. */
  predicate Patient(s: T.State, start: Transaction) {
    && SameTerms(s.stored, start) && WorkerTerms(s.worker, start) && !s.stored.status.Failed?
    && (T.Undo in s.scans ==> TS.AbortStatus(s.stored.status))
    && T.ScheduleAbort !in s.scans && T.ForceStop !in s.scans
  }

  /** Every scan of the run reads the clock before the deadline. */
  predicate ScansEarly(es: seq<T.Event>, start: Transaction) {
    forall k :: 0 <= k < |es| && es[k].Scan? ==> !Overdue(start, es[k].now)
  }

  lemma StepPatient(s: T.State, e: T.Event, start: Transaction)
    requires Patient(s, start) && !e.Begin? && (e.Scan? ==> !Overdue(start, e.now))
    requires s.worker.Persisting? && TS.AbortStatus(s.stored.status) ==> TS.AbortStatus(s.worker.tx.status)
    ensures Patient(T.Step(s, e), start)
  {
    if e.Scan? { DueMeans(s.stored, e.now); }
  }

  lemma {:induction false} RunsPatient(s: T.State, es: seq<T.Event>, start: Transaction)
    requires TS.Inv(s) && Patient(s, start) && D.OnlyRecovery(es) && ScansEarly(es, start)
    ensures Patient(T.Exec(s, es), start) && R.NobodyUndoes(s, es)
    decreases |es|
  {
    if es != [] {
      TS.StepKeeps(s, es[0]);
      StepPatient(s, es[0], start);
      RunsPatient(T.Step(s, es[0]), es[1..], start);
    }
  }

  /** In runs of registrations and ticks alone whose scans come before the submitted deadline, a transaction
      is undone only once some try has failed as often as its limit allows. So a Prepared one is left
      alone, and an XA transaction is never undone. */
  lemma NoUndoBeforeDeadline(s: T.State, es: seq<T.Event>)
    requires T.Fresh(s) && R.Untried(s) && R.RegistersNew(es)
    requires D.OnlyRecovery(es) && ScansEarly(es, s.stored)
    ensures var end := T.Exec(s, es);
            && (T.Undo in end.scans || TS.AbortStatus(end.stored.status) ==>
                  TS.AbortStatus(end.stored.status) && s.stored.kind.Tcc? && R.TrySpent(end.log, R.AllowedTries(s)))
            && (end.stored.status.Prepared? ==> T.Undo !in end.scans)
  {
    TS.FreshInv(s);
    RunsPatient(s, es, s.stored);
    if TS.AbortStatus(T.Exec(s, es).stored.status) { R.AbortedOnlyWhenSpent(s, es); }
  }

  // ---------------------------------------------------------------------
  // Deadlines over whole runs of Messages

  predicate MessageScansEarly(es: seq<M.Event>, start: Transaction) {
    forall k :: 0 <= k < |es| && es[k].Recover? ==> !Overdue(start, es[k].at)
  }

  ghost predicate MessagePatient(s: M.State, start: Transaction) {
    && SameTerms(s.stored, start) && (s.stored.status.Submitted? || s.stored.status.Prepared?)
    && forall w :: w in s.workers ==>
         match s.workers[w]
         case Idle => true
         case Chosen(request) => request.Prepare?
         case Persisting(tx, next) => SameTerms(tx, start) && tx.status.Prepared? && next.Return?
         case _ => false
  }

  lemma StepMessagePatient(s: M.State, e: M.Event, start: Transaction)
    requires MessagePatient(s, start) && !e.Begin? && (e.Recover? ==> !Overdue(start, e.at))
    ensures MessagePatient(M.Step(s, e), start)
  {
    if e.Recover? { DueMeans(s.stored, e.at); }
  }

  lemma {:induction false} RunsMessagePatient(s: M.State, es: seq<M.Event>, start: Transaction)
    requires MessagePatient(s, start) && (forall k :: 0 <= k < |es| ==> !es[k].Begin?) && MessageScansEarly(es, start)
    ensures MessagePatient(M.Exec(s, es), start)
    decreases |es|
  {
    if es != [] {
      StepMessagePatient(s, es[0], start);
      RunsMessagePatient(M.Step(s, es[0]), es[1..], start);
    }
  }

  /** In runs of ticks alone that scan before the submitted deadline, a Message is prepared and otherwise
      left alone: no worker takes up an abort, and Aborted is never stored. */
  lemma NoAbortBeforeDeadline(s: M.State, es: seq<M.Event>)
    requires M.Fresh(s) && (forall k :: 0 <= k < |es| ==> !es[k].Begin?) && MessageScansEarly(es, s.stored)
    ensures var end := M.Exec(s, es);
            && (end.stored.status.Submitted? || end.stored.status.Prepared?)
            && forall w :: M.WorkerAt(end, w) != M.Chosen(M.Abort)
  {
    RunsMessagePatient(s, es, s.stored);
  }
}
