/** When a sequential Saga that nobody aborts is aborted: exactly when some action has failed as often as
    its retry limit allows. Until then a failed action leaves the Saga going forward, with the barrier
    free for the retry. */
module SequentialSagaRetries {
  import opened Core
  import opened Edits
  import opened Attempts
  import opened SequentialSaga

  predicate AbortStatus(status: TransactionStatus) { status.Aborting? || status.Aborted? }

  /** Nobody asks for an abort, other than for one that is decided. */
  predicate NobodyAborts(s: State, es: seq<Event>)
    decreases |es|
  {
    es != [] ==>
      && (es[0].Begin? && (es[0].request.Abort? || es[0].request.ScheduleAbort?) && s.worker.Idle? ==>
            !GoesForward(s.stored.status))
      && NobodyAborts(Step(s, es[0]), es[1..])
  }

  // ---------------------------------------------------------------------
  // The invariant. It is kept in two strengths: `clean` says that no pass was stopped so far.

  datatype Run = Run(start: seq<Branch>, options: Options, clean: bool)

  /** The attempts that a branch shows, against the failures in the log. */
  predicate Shows(r: Run, log: seq<LogEvent>, b: Branch, i: nat, pending: nat)
    requires i < |r.start|
  {
    var tried := Tried(r.start, log, Action, i) + pending;
    b.id == r.start[i].id
    && (!b.status.Succeeded? ==> b.attempts <= tried && (r.clean ==> b.attempts == Sat32(tried)))
  }

  /** A branch that failed shows it, and when it may be retried. */
  predicate Waits(r: Run, log: seq<LogEvent>, b: Branch, i: nat) {
    r.clean && !b.status.Succeeded? && Failures(log, Action, i) > 0 ==> b.status.Failed? && b.nextRetry.Some?
  }

  predicate Counted(r: Run, log: seq<LogEvent>, bs: seq<Branch>, but: int) {
    |bs| == |r.start| && forall i: nat :: i < |bs| && i != but ==> Shows(r, log, bs[i], i, 0) && Waits(r, log, bs[i], i)
  }

  predicate NoneSpent(r: Run, log: seq<LogEvent>, but: int) {
    forall i: nat :: i < |r.start| && i != but ==> Tried(r.start, log, Action, i) < Allowed(r.options, 1)
  }

  /** An action barrier is held only for a success, or for the current call. */
  ghost predicate HeldForSuccess(held: set<Key>, log: seq<LogEvent>, but: Option<Key>) {
    forall key :: key in held && key.op == Action && Some(key) != but ==> OkFor(log, key)
  }

  ghost predicate Undecided(r: Run, s: State, bs: seq<Branch>) {
    Counted(r, s.log, bs, -1) && (r.clean ==> NoneSpent(r, s.log, -1) && HeldForSuccess(s.held, s.log, None))
  }

  ghost predicate RecordOk(r: Run, s: State, tx: Transaction) {
    && tx.options == r.options
    && (AbortStatus(tx.status) ==> Spent(r.start, s.log, Action, Allowed(r.options, 1)))
    && (GoesForward(tx.status) || tx.status.Succeeded? ==> Undecided(r, s, tx.branches))
    && !tx.status.Trying? && !tx.status.Prepared?
  }

  ghost predicate CallOk(r: Run, s: State, tx: Transaction, k: nat, call: Call)
    requires k < |r.start| == |tx.branches|
  {
    var key := KeyAt(tx.branches, k, Action);
    && Counted(r, s.log, tx.branches, k) && !tx.branches[k].status.Succeeded? && tx.branches[k].id == r.start[k].id
    && match call
       case Replied(true) => r.clean ==> NoneSpent(r, s.log, -1) && HeldForSuccess(s.held, s.log, None)
       case Replied(false) =>
         && Shows(r, s.log, tx.branches[k], k, 0)
         && (r.clean ==> NoneSpent(r, s.log, k) && HeldForSuccess(s.held, s.log, Some(key)))
       case _ =>
         && Shows(r, s.log, tx.branches[k], k, 1)
         && (r.clean ==> NoneSpent(r, s.log, -1) && HeldForSuccess(s.held, s.log, Some(key)))
  }

  ghost predicate WorkerOk(r: Run, s: State, wk: Worker) {
    match wk
    case Idle => RecordOk(r, s, s.stored)
    case Persisting(tx, next) =>
      RecordOk(r, s, tx) && (next.Forward? ==> tx.status.Succeeding?) && (next.EnterAbort? ==> tx.status.Aborting?)
    case AtAction(tx, k) => RecordOk(r, s, tx) && tx.status.Succeeding? && tx == s.stored
    case ActionCall(tx, k, call) =>
      && tx.options == r.options && tx.status.Succeeding?
      && k < |tx.branches| == |r.start| && CallOk(r, s, tx, k, call)
    case AtCompensation(tx, k) => RecordOk(r, s, tx) && tx.status.Aborting?
    case CompensationCall(tx, k, _) => RecordOk(r, s, tx) && tx.status.Aborting?
  }

  /** The record lags behind the worker; if the worker stops, what the record says still holds, and more
      is lost only in runs that are not clean. */
  ghost predicate Inv(r: Run, s: State) {
    && Fits32(r.options, r.start)
    && RecordOk(r.(clean := false), s, s.stored) && WorkerOk(r, s, s.worker)
  }

  // ---------------------------------------------------------------------
  // Steps

  lemma SatThreshold(o: Options, tried: nat, attempts: nat)
    requires o.retryLimit.Some? ==> o.retryLimit.value <= MAX_U32
    ensures attempts <= tried && attempts >= MaxAttempts(o) ==> tried >= Allowed(o, 1)
    ensures attempts == Sat32(tried) && attempts < MaxAttempts(o) ==> tried < Allowed(o, 1)
  {
  }

  lemma Weaker(r: Run, s: State, tx: Transaction)
    requires RecordOk(r, s, tx)
    ensures RecordOk(r.(clean := false), s, tx)
  {
    if Counted(r, s.log, tx.branches, -1) {
      forall i: nat | i < |tx.branches|
        ensures Shows(r.(clean := false), s.log, tx.branches[i], i, 0)
             && Waits(r.(clean := false), s.log, tx.branches[i], i) {
        assert Shows(r, s.log, tx.branches[i], i, 0);
      }
    }
  }

  lemma SameCounts(r: Run, log: seq<LogEvent>, e: LogEvent)
    requires forall i: nat :: !FailureOf(e, Action, i)
    ensures forall bs: seq<Branch>, but: int :: Counted(r, log, bs, but) ==> Counted(r, log + [e], bs, but)
    ensures forall but: int :: NoneSpent(r, log, but) ==> NoneSpent(r, log + [e], but)
  {
    FailuresAppend(log, e);
    forall bs: seq<Branch>, but: int | Counted(r, log, bs, but) ensures Counted(r, log + [e], bs, but) {
      forall i: nat | i < |bs| && i != but ensures Shows(r, log + [e], bs[i], i, 0) && Waits(r, log + [e], bs[i], i) {
        assert Shows(r, log, bs[i], i, 0) && Waits(r, log, bs[i], i);
      }
    }
    forall but: int | NoneSpent(r, log, but) ensures NoneSpent(r, log + [e], but) {
      forall i: nat | i < |r.start| && i != but ensures Tried(r.start, log + [e], Action, i) < Allowed(r.options, 1) {
        assert Tried(r.start, log, Action, i) < Allowed(r.options, 1);
      }
    }
  }

  lemma HeldGrows(held: set<Key>, log: seq<LogEvent>, e: LogEvent)
    ensures forall but :: HeldForSuccess(held, log, but) ==> HeldForSuccess(held, log + [e], but)
  {
    OkForAppend(log, e);
  }

  lemma LogSame(r: Run, s: State, s': State, e: LogEvent, tx: Transaction)
    requires s'.log == s.log + [e] && s'.held == s.held && forall i: nat :: !FailureOf(e, Action, i)
    requires RecordOk(r, s, tx)
    ensures RecordOk(r, s', tx)
  {
    SameCounts(r, s.log, e);
    HeldGrows(s.held, s.log, e);
    if AbortStatus(tx.status) { SpentAppend(r.start, s.log, e, Action, Allowed(r.options, 1)); }
  }

  lemma BeginOk(r: Run, s: State, request: Request)
    requires Inv(r, s) && s.worker.Idle?
    requires request.Abort? || request.ScheduleAbort? ==> !GoesForward(s.stored.status)
    ensures Inv(r, s.(worker := BeginRequest(s.stored, request)))
  {
    var wk := BeginRequest(s.stored, request);
    if wk.Persisting? && GoesForward(wk.tx.status) {
      forall i: nat | i < |wk.tx.branches|
        ensures Shows(r, s.log, wk.tx.branches[i], i, 0) && Waits(r, s.log, wk.tx.branches[i], i) {
        assert Shows(r, s.log, s.stored.branches[i], i, 0) && Waits(r, s.log, s.stored.branches[i], i);
        assert wk.tx.branches[i].(nextRetry := None) == s.stored.branches[i].(nextRetry := None);
      }
    }
  }

  lemma PersistOk(r: Run, s: State, time: nat)
    requires Inv(r, s)
    ensures Inv(r, PersistStep(s, time))
  {
    if s.worker.Persisting? {
      var tx, s' := s.worker.tx, PersistStep(s, time);
      LogSame(r, s, s', Stored(tx.status), tx);
      assert RecordOk(r, s', tx);
      assert RecordOk(r, s', Bumped(tx, time));
      Weaker(r, s', Bumped(tx, time));
    }
  }

  /** Only the call in progress is counted ahead. */
  lemma StartsCall(r: Run, s: State, tx: Transaction, k: nat)
    requires Inv(r, s) && s.worker == AtAction(tx, k) && k < |tx.branches| && !tx.branches[k].status.Succeeded?
    requires Decide(s.held, KeyAt(tx.branches, k, Action)) == Execute
    ensures Inv(r, AdvanceAction(s, tx, k))
  {
    var s', b := AdvanceAction(s, tx, k), StartRunning(tx.branches[k]);
    assert Shows(r, s.log, tx.branches[k], k, 0);
    assert Shows(r, s.log, b, k, 1);
    assert s'.worker.tx.branches == tx.branches[k := b];
    HeldMore(r, s, s');
  }

  lemma HeldMore(r: Run, s: State, s': State)
    requires RecordOk(r.(clean := false), s, s.stored) && s'.log == s.log && s'.stored == s.stored
    ensures RecordOk(r.(clean := false), s', s'.stored)
  {
  }

  lemma AdvanceActionOk(r: Run, s: State, tx: Transaction, k: nat)
    requires Inv(r, s) && s.worker == AtAction(tx, k)
    ensures Inv(r, AdvanceAction(s, tx, k))
  {
    if k < |tx.branches| && !tx.branches[k].status.Succeeded? && Decide(s.held, KeyAt(tx.branches, k, Action)) == Execute {
      StartsCall(r, s, tx, k);
    }
  }

  lemma SucceededOk(r: Run, s: State, tx: Transaction, k: nat, retryAt: nat)
    requires Inv(r, s) && s.worker == ActionCall(tx, k, Replied(true)) && k < |tx.branches|
    ensures Inv(r, FinishAction(s, tx, k, true, retryAt))
  {
    var s' := FinishAction(s, tx, k, true, retryAt);
    var bs := s'.worker.tx.branches;
    forall i: nat | i < |bs| ensures Shows(r, s'.log, bs[i], i, 0) && Waits(r, s'.log, bs[i], i) {
      if i != k { assert Shows(r, s.log, tx.branches[i], i, 0) && Waits(r, s.log, tx.branches[i], i); }
    }
    HeldMore(r, s, s');
  }

  lemma RetriedOk(r: Run, s: State, tx: Transaction, k: nat, retryAt: nat)
    requires Inv(r, s) && s.worker == ActionCall(tx, k, Replied(false)) && k < |tx.branches|
    requires tx.branches[k].attempts < MaxAttempts(tx.options)
    ensures Inv(r, FinishAction(s, tx, k, false, retryAt))
  {
    var s' := FinishAction(s, tx, k, false, retryAt);
    var bs := s'.worker.tx.branches;
    assert Shows(r, s.log, tx.branches[k], k, 0);
    SatThreshold(r.options, Tried(r.start, s.log, Action, k), tx.branches[k].attempts);
    forall i: nat | i < |bs| ensures Shows(r, s'.log, bs[i], i, 0) && Waits(r, s'.log, bs[i], i) {
      if i != k { assert Shows(r, s.log, tx.branches[i], i, 0) && Waits(r, s.log, tx.branches[i], i); }
    }
    HeldMore(r, s, s');
  }

  lemma ExhaustedOk(r: Run, s: State, tx: Transaction, k: nat, retryAt: nat)
    requires Inv(r, s) && s.worker == ActionCall(tx, k, Replied(false)) && k < |tx.branches|
    requires tx.branches[k].attempts >= MaxAttempts(tx.options)
    ensures Inv(r, FinishAction(s, tx, k, false, retryAt))
  {
    var s' := FinishAction(s, tx, k, false, retryAt);
    assert Shows(r, s.log, tx.branches[k], k, 0);
    SatThreshold(r.options, Tried(r.start, s.log, Action, k), tx.branches[k].attempts);
    HeldMore(r, s, s');
  }

  lemma FinishOk(r: Run, s: State, tx: Transaction, k: nat, ok: bool, retryAt: nat)
    requires Inv(r, s) && s.worker == ActionCall(tx, k, Replied(ok)) && k < |tx.branches|
    ensures Inv(r, FinishAction(s, tx, k, ok, retryAt))
  {
    if ok { SucceededOk(r, s, tx, k, retryAt);
    } else if tx.branches[k].attempts < MaxAttempts(tx.options) { RetriedOk(r, s, tx, k, retryAt);
    } else { ExhaustedOk(r, s, tx, k, retryAt); }
  }

  /** An abort pass changes neither what was decided nor what failed. */
  lemma UndoOk(r: Run, s: State, retryAt: nat)
    requires Inv(r, s) && (s.worker.AtCompensation? || s.worker.CompensationCall?)
    ensures Inv(r, AdvanceStep(s, retryAt))
  {
    HeldMore(r, s, AdvanceStep(s, retryAt));
  }

  lemma AdvanceOk(r: Run, s: State, retryAt: nat)
    requires Inv(r, s)
    ensures Inv(r, AdvanceStep(s, retryAt))
  {
    match s.worker
    case AtAction(tx, k) => AdvanceActionOk(r, s, tx, k);
    case ActionCall(tx, k, Replied(ok)) => FinishOk(r, s, tx, k, ok, retryAt);
    case AtCompensation(_, _) => UndoOk(r, s, retryAt);
    case CompensationCall(_, _, _) => UndoOk(r, s, retryAt);
    case _ =>
  }

  lemma OthersCounted(r: Run, log: seq<LogEvent>, e: LogEvent, bs: seq<Branch>, k: nat)
    requires Counted(r, log, bs, k) && !e.Stored? && e.index == k
    ensures Counted(r, log + [e], bs, k)
    ensures NoneSpent(r, log, -1) ==> NoneSpent(r, log + [e], if e.Answered? && !e.ok then k else -1)
  {
    FailuresAppend(log, e);
    forall i: nat | i < |r.start| && NoneSpent(r, log, -1) && !FailureOf(e, Action, i)
      ensures Tried(r.start, log + [e], Action, i) < Allowed(r.options, 1) {
      assert Tried(r.start, log, Action, i) < Allowed(r.options, 1);
    }
    forall i: nat | i < |bs| && i != k ensures Shows(r, log + [e], bs[i], i, 0) && Waits(r, log + [e], bs[i], i) {
      assert Shows(r, log, bs[i], i, 0) && Waits(r, log, bs[i], i);
    }
  }

  lemma ActionAnswered(r: Run, s: State, e: LogEvent, call: Call)
    requires Inv(r, s) && s.worker.ActionCall? && (s.worker.call == Spawned || s.worker.call == Open)
    requires (e.Issued? && call == Open) || (e.Answered? && call == Replied(e.ok))
    requires e.op == Action && e.index == s.worker.k && e.id == s.worker.tx.branches[s.worker.k].id
    ensures Inv(r, s.(log := s.log + [e], worker := ActionCall(s.worker.tx, s.worker.k, call)))
  {
    var tx, k := s.worker.tx, s.worker.k;
    var s' := s.(log := s.log + [e], worker := ActionCall(tx, k, call));
    HeldGrows(s.held, s.log, e);
    FailuresAppend(s.log, e);
    OkForAppend(s.log, e);
    assert Shows(r, s.log, tx.branches[k], k, 1);
    OthersCounted(r, s.log, e, tx.branches, k);
    StoredAnswered(r, s, s', e);
  }

  /** What a record shows can only fall behind the log. */
  lemma StoredAnswered(r: Run, s: State, s': State, e: LogEvent)
    requires RecordOk(r.(clean := false), s, s.stored) && s'.log == s.log + [e] && s'.stored == s.stored
    ensures RecordOk(r.(clean := false), s', s'.stored)
  {
    FailuresAppend(s.log, e);
    if AbortStatus(s.stored.status) { SpentAppend(r.start, s.log, e, Action, Allowed(r.options, 1)); }
    if Counted(r.(clean := false), s.log, s.stored.branches, -1) {
      forall i: nat | i < |s.stored.branches|
        ensures Shows(r.(clean := false), s'.log, s.stored.branches[i], i, 0)
             && Waits(r.(clean := false), s'.log, s.stored.branches[i], i) {
        assert Shows(r.(clean := false), s.log, s.stored.branches[i], i, 0);
      }
    }
  }

  lemma CompensationAnswered(r: Run, s: State, e: LogEvent, call: Call)
    requires Inv(r, s) && s.worker.CompensationCall? && !e.Stored? && e.op == Compensate
    ensures Inv(r, s.(log := s.log + [e], worker := CompensationCall(s.worker.tx, s.worker.k, call)))
  {
    var s' := s.(log := s.log + [e], worker := CompensationCall(s.worker.tx, s.worker.k, call));
    SpentAppend(r.start, s.log, e, Action, Allowed(r.options, 1));
    StoredAnswered(r, s, s', e);
  }

  lemma StepOk(r: Run, s: State, e: Event)
    requires Inv(r, s) && (r.clean ==> !e.Crash?) && NobodyAborts(s, [e])
    ensures Inv(r, Step(s, e))
  {
    match e
    case Begin(request) => if s.worker.Idle? { BeginOk(r, s, request); }
    case Persist(time) => PersistOk(r, s, time);
    case Advance(retryAt) => AdvanceOk(r, s, retryAt);
    case Issue(at) =>
      if Target(s.worker).Some? && s.worker.call == Spawned {
        var (op, i) := Target(s.worker).value;
        var ev := Issued(op, i, s.worker.tx.branches[i].id, at);
        if op == Action { ActionAnswered(r, s, ev, Open); } else { CompensationAnswered(r, s, ev, Open); }
      }
    case Answer(ok) =>
      if Target(s.worker).Some? && s.worker.call == Open {
        var (op, i) := Target(s.worker).value;
        var ev := Answered(op, i, s.worker.tx.branches[i].id, ok);
        if op == Action { ActionAnswered(r, s, ev, Replied(ok)); } else { CompensationAnswered(r, s, ev, Replied(ok)); }
      }
    case Crash =>
  }

  lemma {:induction false} ExecOk(r: Run, s: State, es: seq<Event>)
    requires Inv(r, s) && NobodyAborts(s, es) && (r.clean ==> forall k :: 0 <= k < |es| ==> !es[k].Crash?)
    ensures Inv(r, Exec(s, es))
    decreases |es|
  {
    if es != [] {
      assert NobodyAborts(Step(s, es[0]), []);
      StepOk(r, s, es[0]);
      ExecOk(r, Step(s, es[0]), es[1..]);
    }
  }

  lemma FreshOk(r: Run, s: State)
    requires Fresh(s) && r.start == s.stored.branches && r.options == s.stored.options
    requires Fits32(s.stored.options, s.stored.branches)
    requires r.clean ==> forall i :: 0 <= i < |r.start| ==> r.start[i].attempts < Allowed(r.options, 1)
    ensures Inv(r, s)
  {
  }

  // ---------------------------------------------------------------------
  // Whole runs

  /** Wherever passes stop: a Saga that nobody aborts is aborted only after some action was answered with
      failure as often as its limit allows. */
  lemma AbortedOnlyWhenSpent(s: State, es: seq<Event>)
    requires Fresh(s) && Fits32(s.stored.options, s.stored.branches) && NobodyAborts(s, es)
    requires AbortStatus(Exec(s, es).stored.status)
    ensures Spent(s.stored.branches, Exec(s, es).log, Action, Allowed(s.stored.options, 1))
  {
    var r := Run(s.stored.branches, s.stored.options, false);
    FreshOk(r, s);
    ExecOk(r, s, es);
  }

  /** Between passes of a run without stops, a Saga that nobody aborted or ended by force is Aborting or
      Aborted exactly if some action was answered with failure as often as its limit allows; before
      that every action that has not succeeded can be called again. */
  lemma AbortedIffSpent(s: State, es: seq<Event>)
    requires Fresh(s) && Fits32(s.stored.options, s.stored.branches)
    requires forall i :: 0 <= i < |s.stored.branches| ==> s.stored.branches[i].attempts == 0
    requires NobodyAborts(s, es) && forall k :: 0 <= k < |es| ==> !es[k].Crash? && es[k] != Begin(ForceStop)
    requires Exec(s, es).worker.Idle?
    ensures var end := Exec(s, es);
            && (AbortStatus(end.stored.status) <==>
                  Spent(s.stored.branches, end.log, Action, Allowed(s.stored.options, 1)))
            && (!AbortStatus(end.stored.status) ==>
                  && (GoesForward(end.stored.status) || end.stored.status.Succeeded?)
                  && |end.stored.branches| == |s.stored.branches|
                  && forall i: nat :: i < |s.stored.branches| && !OkFor(end.log, KeyAt(s.stored.branches, i, Action)) ==>
                       && KeyAt(s.stored.branches, i, Action) !in end.held
                       && (Failures(end.log, Action, i) > 0 && !end.stored.branches[i].status.Succeeded? ==>
                             end.stored.branches[i].status.Failed? && end.stored.branches[i].nextRetry.Some?))
  {
    var r := Run(s.stored.branches, s.stored.options, true);
    FreshOk(r, s);
    ExecOk(r, s, es);
    NeverFailed(s, es);
  }

  lemma {:induction false} NeverFailed(s: State, es: seq<Event>)
    requires !s.stored.status.Failed? && (s.worker.Persisting? ==> !s.worker.tx.status.Failed?)
    requires s.worker.AtAction? || s.worker.ActionCall? || s.worker.AtCompensation? || s.worker.CompensationCall? ==>
               !s.worker.tx.status.Failed?
    requires forall k :: 0 <= k < |es| ==> es[k] != Begin(ForceStop)
    ensures !Exec(s, es).stored.status.Failed?
    decreases |es|
  {
    if es != [] { NeverFailed(Step(s, es[0]), es[1..]); }
  }

  // ---------------------------------------------------------------------
  // What a failed action stores

  /** The record after branch k failed with no attempt left: whatever succeeded, and the branch itself, is
      to be compensated, the branch from its retry time on. */
  predicate TurnedBack(before: seq<Branch>, after: seq<Branch>, k: nat, retryAt: nat) {
    && |after| == |before|
    && forall i :: 0 <= i < |before| ==>
         after[i] == if i == k then before[i].(status := BranchStatus.Compensating, nextRetry := Some(retryAt))
                     else if before[i].status.Succeeded? then before[i].(status := BranchStatus.Compensating)
                     else before[i]
  }

  /** The record after branch k failed with attempts left. */
  predicate ToRetry(before: seq<Branch>, after: seq<Branch>, k: nat, retryAt: nat) {
    k < |before| && after == before[k := before[k].(status := BranchStatus.Failed, nextRetry := Some(retryAt))]
  }

  lemma FailedActionStores(s: State, retryAt: nat, time: nat)
    requires s.worker.ActionCall? && s.worker.k < |s.worker.tx.branches| && s.worker.call == Open
    requires s.worker.tx.status.Succeeding? && Fits32(s.worker.tx.options, [])
    ensures var tx, k := s.worker.tx, s.worker.k;
            var end := Exec(s, [Answer(false), Advance(retryAt), Persist(time)]);
            if tx.branches[k].attempts >= Allowed(tx.options, 1)
            then end.stored.status.Aborting? && TurnedBack(tx.branches, end.stored.branches, k, retryAt)
            else end.stored.status.Succeeding? && ToRetry(tx.branches, end.stored.branches, k, retryAt)
  {
    var a, b, c := Answer(false), Advance(retryAt), Persist(time);
    var s1 := Step(s, a);
    var s2 := Step(s1, b);
    var s3 := Step(s2, c);
    assert [a, b, c][1..] == [b, c] && [b, c][1..] == [c] && [c][1..] == [];
    assert Exec(s2, [c]) == Exec(s3, []) && Exec(s1, [b, c]) == Exec(s2, [c]);
    assert s2.worker.Persisting? && s3.stored.branches == s2.worker.tx.branches;
  }
}
