/** When a TCC or XA transaction that nobody undoes is aborted: exactly when some try has failed as often as
    its limit allows. Until then a failed try leaves the transaction open, with its barrier free for
    the retry. */
module TwoPhaseRetries {
  import opened Core
  import opened Edits
  import opened Attempts
  import opened TwoPhase
  import opened S = TwoPhaseSafety
  import D = TwoPhaseDecisions

  /** Nobody asks to undo what is not being undone already. */
  predicate NobodyUndoes(s: State, es: seq<Event>)
    decreases |es|
  {
    es != [] ==>
      && (D.Asked(s, es[0]) == Some(Undo) || D.Asked(s, es[0]) == Some(ScheduleAbort) ==> !Undecided(s.stored.status))
      && NobodyUndoes(Step(s, es[0]), es[1..])
  }

  /** Branches are registered before they are tried. */
  predicate RegistersNew(es: seq<Event>) {
    forall k :: 0 <= k < |es| && es[k].Register? ==> es[k].branch.attempts == 0
  }

  // ---------------------------------------------------------------------
  // The invariant. `clean` says that no pass was stopped so far.

  datatype Run = Run(allowed: nat, options: Options, attempts: nat, clean: bool)

  predicate Shows(r: Run, log: seq<LogEvent>, b: Branch, i: nat, pending: nat) {
    !b.status.Succeeded? ==>
      && b.attempts <= Failures(log, Try, i) + pending
      && (r.clean ==> b.attempts == Sat32(Failures(log, Try, i) + pending))
  }

  /** A branch that failed shows it, and when it may be retried. */
  predicate Waits(r: Run, log: seq<LogEvent>, b: Branch, i: nat) {
    r.clean && !b.status.Succeeded? && Failures(log, Try, i) > 0 ==> b.status.Failed? && b.nextRetry.Some?
  }

  predicate Counted(r: Run, log: seq<LogEvent>, bs: seq<Branch>, but: int) {
    forall i: nat :: i < |bs| && i != but ==> Shows(r, log, bs[i], i, 0) && Waits(r, log, bs[i], i)
  }

  ghost predicate TrySpent(log: seq<LogEvent>, allowed: nat) { exists i: nat :: Failures(log, Try, i) >= allowed }

  ghost predicate NoneSpent(r: Run, log: seq<LogEvent>, but: int) {
    forall i: nat :: i != but ==> Failures(log, Try, i) < r.allowed
  }

  /** No cancel is held; a try barrier is held only for a success, or for the current call. */
  ghost predicate TriesOnly(r: Run, s: State, but: Option<Key>) {
    && (forall key :: key in s.held ==> key.op != Cancel)
    && (r.clean ==> forall key :: key in s.held && key.op == Try && Some(key) != but ==> OkFor(s.log, key))
  }

  ghost predicate RecordOk(r: Run, s: State, tx: Transaction) {
    && tx.options == r.options && (tx.kind.Tcc? || tx.kind.Xa?)
    && (Undecided(tx.status) ==> Counted(r, s.log, tx.branches, -1))
    && (Undecided(tx.status) || CommitStatus(tx.status) ==>
          TriesOnly(r, s, None) && (r.clean ==> NoneSpent(r, s.log, -1)))
    && (AbortStatus(tx.status) ==> TrySpent(s.log, r.allowed))
  }

  ghost predicate TryOk(r: Run, s: State, tx: Transaction, k: nat, call: Call)
    requires k < |tx.branches|
  {
    var key := KeyAt(Pass.Trying, tx, k);
    && Counted(r, s.log, tx.branches, k) && !tx.branches[k].status.Succeeded? && tx.branches[k].attempts > 0
    && match call
       case Replied(true) => TriesOnly(r, s, None) && (r.clean ==> NoneSpent(r, s.log, -1))
       case Replied(false) =>
         Shows(r, s.log, tx.branches[k], k, 0) && TriesOnly(r, s, Some(key)) && (r.clean ==> NoneSpent(r, s.log, k))
       case _ =>
         Shows(r, s.log, tx.branches[k], k, 1) && TriesOnly(r, s, Some(key)) && (r.clean ==> NoneSpent(r, s.log, -1))
  }

  ghost predicate WorkerOk(r: Run, s: State, wk: Worker) {
    match wk
    case Idle => RecordOk(r, s, s.stored)
    case Persisting(tx) => RecordOk(r, s, tx) && |tx.branches| == |s.stored.branches|
    case Looping(pass, tx, k) =>
      && RecordOk(r, s, tx) && tx.status == S.Running(pass) && |tx.branches| == |s.stored.branches|
      && (if pass.Trying? then tx.kind.Tcc? else RecordOk(r, s, s.stored) && (pass.Undoing? ==> AbortStatus(s.stored.status)))
    case Calling(pass, tx, k, call) =>
      && tx.options == r.options && (tx.kind.Tcc? || tx.kind.Xa?) && tx.status == S.Running(pass)
      && k < |tx.branches| == |s.stored.branches|
      && if pass.Trying? then tx.kind.Tcc? && TryOk(r, s, tx, k, call)
         else RecordOk(r, s, tx) && RecordOk(r, s, s.stored) && (pass.Undoing? ==> AbortStatus(s.stored.status))
  }

  ghost predicate Inv(r: Run, s: State) {
    && r.allowed == Allowed(r.options, if r.attempts == 0 then 1 else r.attempts) > 0
    && s.defaultAttempts == r.attempts && r.attempts <= MAX_U32
    && (r.options.retryLimit.Some? ==> r.options.retryLimit.value <= MAX_U32)
    && (forall p :: 0 <= p < |s.log| && !s.log[p].Stored? ==> s.log[p].index < |s.stored.branches|)
    && RecordOk(r.(clean := false), s, s.stored) && WorkerOk(r, s, s.worker)
  }

  // ---------------------------------------------------------------------
  // The log grows

  predicate TryFailure(e: LogEvent) { e.Answered? && !e.ok && e.op == Try }

  lemma SpentGrows(log: seq<LogEvent>, e: LogEvent, allowed: nat)
    requires TrySpent(log, allowed)
    ensures TrySpent(log + [e], allowed)
  {
    FailuresAppend(log, e);
    var i: nat :| Failures(log, Try, i) >= allowed;
    assert Failures(log + [e], Try, i) >= allowed;
  }

  lemma SameCounts(r: Run, log: seq<LogEvent>, e: LogEvent)
    requires !TryFailure(e)
    ensures forall i: nat :: Failures(log + [e], Try, i) == Failures(log, Try, i)
    ensures forall bs: seq<Branch>, but: int :: Counted(r, log, bs, but) ==> Counted(r, log + [e], bs, but)
    ensures forall but: int :: NoneSpent(r, log, but) ==> NoneSpent(r, log + [e], but)
  {
    FailuresAppend(log, e);
    forall bs: seq<Branch>, but: int | Counted(r, log, bs, but) ensures Counted(r, log + [e], bs, but) {
      forall i: nat | i < |bs| && i != but ensures Shows(r, log + [e], bs[i], i, 0) && Waits(r, log + [e], bs[i], i) {
        assert Shows(r, log, bs[i], i, 0) && Waits(r, log, bs[i], i);
      }
    }
  }

  lemma TriesSame(r: Run, s: State, s': State, e: LogEvent)
    requires s'.log == s.log + [e] && s'.held == s.held
    ensures forall but :: TriesOnly(r, s, but) ==> TriesOnly(r, s', but)
  {
    OkForAppend(s.log, e);
  }

  lemma RecordSame(r: Run, s: State, s': State, e: LogEvent, tx: Transaction)
    requires s'.log == s.log + [e] && s'.held == s.held && !TryFailure(e) && RecordOk(r, s, tx)
    ensures RecordOk(r, s', tx)
  {
    SameCounts(r, s.log, e);
    TriesSame(r, s, s', e);
    if AbortStatus(tx.status) { SpentGrows(s.log, e, r.allowed); }
  }

  /** What a record shows can only fall behind the log. */
  lemma RecordBehind(r: Run, s: State, s': State, e: LogEvent)
    requires RecordOk(r.(clean := false), s, s.stored) && s'.log == s.log + [e] && s'.stored == s.stored && s'.held == s.held
    ensures RecordOk(r.(clean := false), s', s'.stored)
  {
    FailuresAppend(s.log, e);
    var u := r.(clean := false);
    if AbortStatus(s.stored.status) { SpentGrows(s.log, e, r.allowed); }
    if Undecided(s.stored.status) {
      forall i: nat | i < |s.stored.branches|
        ensures Shows(u, s'.log, s.stored.branches[i], i, 0) && Waits(u, s'.log, s.stored.branches[i], i) {
        assert Shows(u, s.log, s.stored.branches[i], i, 0);
      }
    }
  }

  lemma Weaker(r: Run, s: State, tx: Transaction)
    requires RecordOk(r, s, tx)
    ensures RecordOk(r.(clean := false), s, tx)
  {
    if Undecided(tx.status) {
      forall i: nat | i < |tx.branches|
        ensures Shows(r.(clean := false), s.log, tx.branches[i], i, 0) && Waits(r.(clean := false), s.log, tx.branches[i], i) {
        assert Shows(r, s.log, tx.branches[i], i, 0);
      }
    }
  }

  // ---------------------------------------------------------------------
  // Steps

  lemma BeginOk(r: Run, s: State, request: Request)
    requires Inv(r, s) && s.worker.Idle?
    requires request.Undo? || request.ScheduleAbort? ==> !Undecided(s.stored.status)
    ensures Inv(r, s.(worker := BeginRequest(s.stored, request)))
  {
    var wk := BeginRequest(s.stored, request);
    if !wk.Idle? && Undecided(wk.tx.status) {
      forall i: nat | i < |wk.tx.branches|
        ensures Shows(r, s.log, wk.tx.branches[i], i, 0) && Waits(r, s.log, wk.tx.branches[i], i) {
        assert Shows(r, s.log, s.stored.branches[i], i, 0) && Waits(r, s.log, s.stored.branches[i], i);
        assert wk.tx.branches[i].(nextRetry := None) == s.stored.branches[i].(nextRetry := None);
      }
    }
  }

  lemma PersistOk(r: Run, s: State, time: nat)
    requires Inv(r, s)
    ensures Inv(r, PersistStep(s, time))
  {
    if s.worker.Persisting? {
      var tx, s' := s.worker.tx, PersistStep(s, time);
      RecordSame(r, s, s', Stored(tx.status), tx);
      assert RecordOk(r, s', Bumped(tx, time));
      Weaker(r, s', Bumped(tx, time));
    }
  }

  lemma TryClaims(r: Run, s: State, tx: Transaction, k: nat)
    requires Inv(r, s) && s.worker == Looping(Pass.Trying, tx, k) && k < |tx.branches| && tx.kind.Tcc?
    ensures Inv(r, AdvanceLoop(s, Pass.Trying, tx, k))
  {
    var s', b, key := AdvanceLoop(s, Pass.Trying, tx, k), tx.branches[k], KeyAt(Pass.Trying, tx, k);
    assert Shows(r, s.log, b, k, 0) && Waits(r, s.log, b, k);
    assert Decide(s.held, key) != SkipCancelledTry;
    if s'.worker.Calling? {
      assert Shows(r, s.log, StartRunning(b), k, 1);
      assert s'.worker.tx.branches == tx.branches[k := StartRunning(b)];
    }
  }

  /** A barrier of another kind is taken. */
  lemma OtherBarrier(r: Run, s: State, s': State, key: Key, tx: Transaction)
    requires RecordOk(r, s, tx) && s'.log == s.log && s'.held == s.held + {key} && key.op != Try
    requires key.op == Cancel ==> !Undecided(tx.status) && !CommitStatus(tx.status)
    ensures RecordOk(r, s', tx)
  {
  }

  /** What a pass over tx relies on beside its own copy. */
  ghost predicate Behind(r: Run, s: State, tx: Transaction) {
    RecordOk(r, s, tx) && RecordOk(r, s, s.stored) && RecordOk(r.(clean := false), s, s.stored)
  }

  lemma ClaimBehind(r: Run, s: State, s': State, pass: Pass, tx: Transaction, k: nat)
    requires Behind(r, s, tx) && k < |tx.branches| && !pass.Trying? && tx.status == S.Running(pass)
    requires pass.Undoing? ==> AbortStatus(s.stored.status)
    requires s'.stored == s.stored && s'.log == s.log
    requires s'.held == s.held || s'.held == s.held + {KeyAt(pass, tx, k)}
    ensures Behind(r, s', tx)
  {
    var key := KeyAt(pass, tx, k);
    if s'.held != s.held {
      OtherBarrier(r, s, s', key, tx);
      OtherBarrier(r, s, s', key, s.stored);
      OtherBarrier(r.(clean := false), s, s', key, s.stored);
    }
  }

  lemma PassClaims(r: Run, s: State, pass: Pass, tx: Transaction, k: nat)
    requires Inv(r, s) && s.worker == Looping(pass, tx, k) && k < |tx.branches| && !pass.Trying?
    ensures Inv(r, AdvanceLoop(s, pass, tx, k))
  {
    var s' := AdvanceLoop(s, pass, tx, k);
    ClaimBehind(r, s, s', pass, tx, k);
    if !s'.worker.Idle? { SameStatusOk(r, s', tx, s'.worker.tx); }
  }

  /** Decided records do not count attempts. */
  lemma SameStatusOk(r: Run, s: State, tx: Transaction, tx': Transaction)
    requires RecordOk(r, s, tx) && tx'.status == tx.status && tx'.options == tx.options && tx'.kind == tx.kind
    requires !Undecided(tx.status)
    ensures RecordOk(r, s, tx')
  {
  }

  lemma SatThreshold(r: Run, s: State, failures: nat, attempts: nat)
    requires Inv(r, s)
    ensures 0 < attempts <= failures && attempts >= MaxAttempts(s, r.options) ==> failures >= r.allowed
    ensures attempts == Sat32(failures) && attempts < MaxAttempts(s, r.options) ==> failures < r.allowed
  {
  }

  lemma TrySucceeded(r: Run, s: State, tx: Transaction, k: nat, retryAt: nat)
    requires Inv(r, s) && s.worker == Calling(Pass.Trying, tx, k, Replied(true))
    ensures Inv(r, FinishCall(s, Pass.Trying, tx, k, true, retryAt))
  {
    var s' := FinishCall(s, Pass.Trying, tx, k, true, retryAt);
    var bs := s'.worker.tx.branches;
    forall i: nat | i < |bs| ensures Shows(r, s'.log, bs[i], i, 0) && Waits(r, s'.log, bs[i], i) {
      if i != k { assert Shows(r, s.log, tx.branches[i], i, 0) && Waits(r, s.log, tx.branches[i], i); }
    }
  }

  lemma TryFailed(r: Run, s: State, tx: Transaction, k: nat, retryAt: nat)
    requires Inv(r, s) && s.worker == Calling(Pass.Trying, tx, k, Replied(false))
    ensures Inv(r, FinishCall(s, Pass.Trying, tx, k, false, retryAt))
  {
    var s', key := FinishCall(s, Pass.Trying, tx, k, false, retryAt), KeyAt(Pass.Trying, tx, k);
    var bs := s'.worker.tx.branches;
    assert Shows(r, s.log, tx.branches[k], k, 0);
    SatThreshold(r, s, Failures(s.log, Try, k), tx.branches[k].attempts);
    forall i: nat | i < |bs| ensures Shows(r, s'.log, bs[i], i, 0) && Waits(r, s'.log, bs[i], i) {
      if i != k { assert Shows(r, s.log, tx.branches[i], i, 0) && Waits(r, s.log, tx.branches[i], i); }
    }
    assert s'.held <= s.held && RecordOk(r.(clean := false), s', s'.stored);
  }

  lemma PassFinishes(r: Run, s: State, pass: Pass, tx: Transaction, k: nat, ok: bool, retryAt: nat)
    requires Inv(r, s) && s.worker == Calling(pass, tx, k, Replied(ok)) && !pass.Trying?
    ensures Inv(r, FinishCall(s, pass, tx, k, ok, retryAt))
  {
    var s' := FinishCall(s, pass, tx, k, ok, retryAt);
    FewerHeld(r, s, s', tx);
    FewerHeld(r, s, s', s.stored);
    FewerHeld(r.(clean := false), s, s', s.stored);
    SameStatusOk(r, s', tx, s'.worker.tx);
  }

  lemma FewerHeld(r: Run, s: State, s': State, tx: Transaction)
    requires RecordOk(r, s, tx) && s'.log == s.log && s'.held <= s.held
    ensures RecordOk(r, s', tx)
  {
  }

  lemma AdvanceOk(r: Run, s: State, retryAt: nat)
    requires Inv(r, s)
    ensures Inv(r, AdvanceStep(s, retryAt))
  {
    match s.worker
    case Looping(pass, tx, k) =>
      if k >= |tx.branches| { EndOkAt(r, s, pass, tx, k);
      } else if pass.Trying? { TryClaims(r, s, tx, k);
      } else { PassClaims(r, s, pass, tx, k); }
    case Calling(pass, tx, k, Replied(ok)) =>
      if !pass.Trying? { PassFinishes(r, s, pass, tx, k, ok, retryAt);
      } else if ok { TrySucceeded(r, s, tx, k, retryAt);
      } else { TryFailed(r, s, tx, k, retryAt); }
    case _ =>
  }

  lemma EndOkAt(r: Run, s: State, pass: Pass, tx: Transaction, k: nat)
    requires Inv(r, s) && s.worker == Looping(pass, tx, k) && k >= |tx.branches|
    ensures Inv(r, s.(worker := Persisting(tx.(status := Finished(pass)))))
  {
  }

  /** What the log shows of branch k changed; the others are as before. */
  lemma OthersCounted(r: Run, log: seq<LogEvent>, e: LogEvent, bs: seq<Branch>, k: nat)
    requires Counted(r, log, bs, k) && !e.Stored? && e.index == k
    ensures Counted(r, log + [e], bs, k)
    ensures NoneSpent(r, log, -1) ==> NoneSpent(r, log + [e], if TryFailure(e) then k else -1)
  {
    FailuresAppend(log, e);
    forall i: nat | i < |bs| && i != k ensures Shows(r, log + [e], bs[i], i, 0) && Waits(r, log + [e], bs[i], i) {
      assert Shows(r, log, bs[i], i, 0) && Waits(r, log, bs[i], i);
    }
  }

  lemma IndexBound(log: seq<LogEvent>, e: LogEvent, n: nat)
    requires forall p :: 0 <= p < |log| && !log[p].Stored? ==> log[p].index < n
    requires !e.Stored? ==> e.index < n
    ensures forall p :: 0 <= p < |log + [e]| && !(log + [e])[p].Stored? ==> (log + [e])[p].index < n
  {
  }

  lemma TryCall(r: Run, s: State, e: LogEvent, call: Call)
    requires Inv(r, s) && s.worker.Calling? && s.worker.pass.Trying? && (s.worker.call == Spawned || s.worker.call == Open)
    requires (e.Issued? && call == Open) || (e.Answered? && call == Replied(e.ok))
    requires e.op == Try && e.index == s.worker.k && e.id == s.worker.tx.branches[s.worker.k].id
    ensures Inv(r, s.(log := s.log + [e], worker := s.worker.(call := call)))
  {
    var tx, k := s.worker.tx, s.worker.k;
    var s' := s.(log := s.log + [e], worker := s.worker.(call := call));
    TriesSame(r, s, s', e);
    FailuresAppend(s.log, e);
    OkForAppend(s.log, e);
    assert Shows(r, s.log, tx.branches[k], k, 1);
    OthersCounted(r, s.log, e, tx.branches, k);
    RecordBehind(r, s, s', e);
    IndexBound(s.log, e, |s.stored.branches|);
  }

  lemma PassCall(r: Run, s: State, e: LogEvent, call: Call)
    requires Inv(r, s) && s.worker.Calling? && !s.worker.pass.Trying?
    requires !e.Stored? && e.op != Try && e.index == s.worker.k
    ensures Inv(r, s.(log := s.log + [e], worker := s.worker.(call := call)))
  {
    var s' := s.(log := s.log + [e], worker := s.worker.(call := call));
    RecordSame(r, s, s', e, s.worker.tx);
    RecordSame(r, s, s', e, s.stored);
    RecordBehind(r, s, s', e);
    IndexBound(s.log, e, |s.stored.branches|);
  }

  /** Nothing in the log is about branches that are not there yet. */
  lemma {:induction false} NoFailures(log: seq<LogEvent>, n: nat, i: nat)
    requires i >= n && forall p :: 0 <= p < |log| && !log[p].Stored? ==> log[p].index < n
    ensures Failures(log, Try, i) == 0
  {
    if log != [] { NoFailures(log[..|log| - 1], n, i); }
  }

  lemma RegisterOk(r: Run, s: State, b: Branch, now: nat)
    requires Inv(r, s) && s.worker.Idle? && b.attempts == 0
    ensures Inv(r, s.(stored := Registered(s.stored, b, now)))
  {
    var n := |s.stored.branches|;
    var after := Registered(s.stored, b, now);
    if after.branches != s.stored.branches {
      NoFailures(s.log, n, n);
      assert after.branches == s.stored.branches + [b];
      RegisteredRecord(r, s, s.(stored := after), b);
      RegisteredRecord(r.(clean := false), s, s.(stored := after), b);
    }
  }

  lemma RegisteredRecord(r: Run, s: State, s': State, b: Branch)
    requires RecordOk(r, s, s.stored) && s'.log == s.log && s'.held == s.held && b.attempts == 0
    requires Failures(s.log, Try, |s.stored.branches|) == 0
    requires s'.stored.branches == s.stored.branches + [b] && s'.stored.status == s.stored.status
    requires s'.stored.options == s.stored.options && s'.stored.kind == s.stored.kind
    ensures RecordOk(r, s', s'.stored)
  {
    if Undecided(s.stored.status) {
      forall i: nat | i < |s'.stored.branches|
        ensures Shows(r, s'.log, s'.stored.branches[i], i, 0) && Waits(r, s'.log, s'.stored.branches[i], i) {
        if i < |s.stored.branches| {
          assert Shows(r, s.log, s.stored.branches[i], i, 0) && Waits(r, s.log, s.stored.branches[i], i);
        }
      }
    }
  }

  lemma CrashOk(r: Run, s: State)
    requires Inv(r, s) && !r.clean
    ensures Inv(r, CrashStep(s))
  {
    assert r.(clean := false) == r;
  }

  lemma IssueOk(r: Run, s: State, at: nat)
    requires Inv(r, s)
    ensures Inv(r, IssueStep(s, at))
  {
    if CallAt(s.worker, Spawned) {
      var key := CurrentKey(s.worker);
      var ev := Issued(key.op, s.worker.k, key.branch, at);
      if s.worker.pass.Trying? { TryCall(r, s, ev, Open); } else { PassCall(r, s, ev, Open); }
    }
  }

  lemma AnswerOk(r: Run, s: State, ok: bool)
    requires Inv(r, s)
    ensures Inv(r, AnswerStep(s, ok))
  {
    if CallAt(s.worker, Open) {
      var key := CurrentKey(s.worker);
      var ev := Answered(key.op, s.worker.k, key.branch, ok);
      if s.worker.pass.Trying? { TryCall(r, s, ev, Replied(ok)); } else { PassCall(r, s, ev, Replied(ok)); }
    }
  }

  lemma StepOk(r: Run, s: State, e: Event)
    requires Inv(r, s) && (r.clean ==> !e.Crash?) && NobodyUndoes(s, [e]) && RegistersNew([e])
    ensures Inv(r, Step(s, e))
  {
    match e
    case Begin(request) => if s.worker.Idle? { BeginOk(r, s, request); }
    case Scan(now) =>
    case Recover(request) => if s.worker.Idle? && request in s.scans { BeginOk(r, s, request); }
    case Register(b, now) =>
      assert [e][0].branch.attempts == 0;
      if s.worker.Idle? { RegisterOk(r, s, b, now); }
    case Persist(time) => PersistOk(r, s, time);
    case Advance(retryAt) => AdvanceOk(r, s, retryAt);
    case Issue(at) => IssueOk(r, s, at);
    case Answer(ok) => AnswerOk(r, s, ok);
    case Crash => CrashOk(r, s);
  }

  lemma {:induction false} ExecOk(r: Run, s: State, es: seq<Event>)
    requires Inv(r, s) && NobodyUndoes(s, es) && RegistersNew(es)
    requires r.clean ==> forall k :: 0 <= k < |es| ==> !es[k].Crash?
    ensures Inv(r, Exec(s, es))
    decreases |es|
  {
    if es != [] {
      assert NobodyUndoes(Step(s, es[0]), []);
      StepOk(r, s, es[0]);
      ExecOk(r, Step(s, es[0]), es[1..]);
    }
  }

  // ---------------------------------------------------------------------
  // Whole runs

  /** How often a try may fail. A default of no attempt at all still makes one. */
  function AllowedTries(s: State): nat { Allowed(s.stored.options, if s.defaultAttempts == 0 then 1 else s.defaultAttempts) }

  predicate Untried(s: State) {
    && Fits32(s.stored.options, s.stored.branches) && s.defaultAttempts <= MAX_U32
    && forall i :: 0 <= i < |s.stored.branches| ==> s.stored.branches[i].attempts == 0
  }

  lemma FreshOk(s: State, clean: bool)
    requires Fresh(s) && Untried(s)
    ensures Inv(Run(AllowedTries(s), s.stored.options, s.defaultAttempts, clean), s)
  {
  }

  /** Wherever passes stop: a transaction that nobody undoes is aborted only after some try was answered with
      failure as often as its limit allows. An XA transaction has no tries. */
  lemma AbortedOnlyWhenSpent(s: State, es: seq<Event>)
    requires Fresh(s) && Untried(s) && NobodyUndoes(s, es) && RegistersNew(es)
    requires AbortStatus(Exec(s, es).stored.status)
    ensures s.stored.kind.Tcc? && TrySpent(Exec(s, es).log, AllowedTries(s))
  {
    var r := Run(AllowedTries(s), s.stored.options, s.defaultAttempts, false);
    FreshOk(s, false);
    ExecOk(r, s, es);
    if s.stored.kind.Xa? { XaHasNoTries(s, es); NoTryFailures(Exec(s, es).log); }
  }

  lemma {:induction false} XaHasNoTries(s: State, es: seq<Event>)
    requires s.stored.kind.Xa? && forall p :: 0 <= p < |s.log| ==> !TryFailure(s.log[p])
    requires (s.worker.Persisting? ==> s.worker.tx.kind.Xa?)
    requires s.worker.Looping? || s.worker.Calling? ==> s.worker.tx.kind.Xa? && !s.worker.pass.Trying?
    ensures forall p :: 0 <= p < |Exec(s, es).log| ==> !TryFailure(Exec(s, es).log[p])
    decreases |es|
  {
    if es != [] { XaHasNoTries(Step(s, es[0]), es[1..]); }
  }

  lemma NoTryFailures(log: seq<LogEvent>)
    requires forall p :: 0 <= p < |log| ==> !TryFailure(log[p])
    ensures forall i: nat :: Failures(log, Try, i) == 0
  {
    forall i: nat ensures Failures(log, Try, i) == 0 { NoFailuresOf(log, i); }
  }

  lemma {:induction false} NoFailuresOf(log: seq<LogEvent>, i: nat)
    requires forall p :: 0 <= p < |log| ==> !TryFailure(log[p])
    ensures Failures(log, Try, i) == 0
  {
    if log != [] { NoFailuresOf(log[..|log| - 1], i); }
  }

  /** Between passes of a run without stops, a transaction that nobody undid or ended by force is Aborting or
      Aborted exactly if some try was answered with failure as often as its limit allows. Before that,
      while it is undecided, every try that has not succeeded can be called again, and one that failed
      shows it and its retry time. */
  lemma AbortedIffSpent(s: State, es: seq<Event>)
    requires Fresh(s) && Untried(s) && NobodyUndoes(s, es) && RegistersNew(es)
    requires forall k :: 0 <= k < |es| ==> !es[k].Crash? && es[k] != Begin(ForceStop)
    requires Exec(s, es).worker.Idle?
    ensures var end := Exec(s, es);
            && (AbortStatus(end.stored.status) <==> TrySpent(end.log, AllowedTries(s)))
            && (Undecided(end.stored.status) ==>
                  forall i: nat :: i < |end.stored.branches| ==>
                    var b, key := end.stored.branches[i], KeyAt(Pass.Trying, end.stored, i);
                    && (!OkFor(end.log, key) ==> key !in end.held)
                    && (Failures(end.log, Try, i) > 0 && !b.status.Succeeded? ==> b.status.Failed? && b.nextRetry.Some?))
  {
    var r := Run(AllowedTries(s), s.stored.options, s.defaultAttempts, true);
    FreshOk(s, true);
    ExecOk(r, s, es);
    NeverFailed(s, es);
    var end := Exec(s, es);
    if Undecided(end.stored.status) {
      forall i: nat | i < |end.stored.branches| ensures Waits(r, end.log, end.stored.branches[i], i) { }
    }
  }

  predicate NotForced(wk: Worker) { wk.Idle? || !wk.tx.status.Failed? }

  lemma {:induction false} NeverFailed(s: State, es: seq<Event>)
    requires !s.stored.status.Failed? && NotForced(s.worker) && ForceStop !in s.scans
    requires forall k :: 0 <= k < |es| ==> es[k] != Begin(ForceStop)
    ensures !Exec(s, es).stored.status.Failed?
    decreases |es|
  {
    if es != [] { NeverFailed(Step(s, es[0]), es[1..]); }
  }
}
