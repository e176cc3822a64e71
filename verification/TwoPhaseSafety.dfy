/** What every run of a TCC or XA transaction keeps: global decisions go one way, a confirm is called
    only after every submitted branch was tried, nothing succeeds twice, and the final statuses mean
    what they say up to barriers orphaned by stopped passes. */
module TwoPhaseSafety {
  import opened Core
  import opened Edits
  import opened TwoPhase

  predicate CommitStatus(status: TransactionStatus) { status.Succeeding? || status.Succeeded? }
  predicate AbortStatus(status: TransactionStatus) { status.Aborting? || status.Aborted? }

  predicate CommitStored(log: seq<LogEvent>) {
    exists p :: 0 <= p < |log| && log[p].Stored? && CommitStatus(log[p].status)
  }

  predicate AbortStored(log: seq<LogEvent>) {
    exists p :: 0 <= p < |log| && log[p].Stored? && AbortStatus(log[p].status)
  }

  /** The decisions that e must not come after. */
  predicate NotAfterCommit(e: LogEvent) {
    match e
    case Stored(status) => AbortStatus(status) || Undecided(status)
    case _ => e.op == Cancel || e.op == Rollback || e.op == Try
  }

  predicate NotAfterAbort(e: LogEvent) {
    match e
    case Stored(status) => CommitStatus(status) || Undecided(status)
    case _ => e.op == Try || e.op == Confirm || e.op == Commit
  }

  predicate OneWay(e: LogEvent, before: seq<LogEvent>) {
    (NotAfterCommit(e) ==> !CommitStored(before)) && (NotAfterAbort(e) ==> !AbortStored(before))
  }

  /** The branch's try succeeded, or its barrier was orphaned. */
  predicate Tried(log: seq<LogEvent>, orphaned: set<Key>, name: string) {
    OkFor(log, Key(name, Try)) || Key(name, Try) in orphaned
  }

  predicate AllTried(log: seq<LogEvent>, orphaned: set<Key>, names: seq<string>) {
    forall i :: 0 <= i < |names| ==> Tried(log, orphaned, names[i])
  }

  predicate EventOk(s: State, e: LogEvent, before: seq<LogEvent>) {
    && OneWay(e, before)
    && (!e.Stored? ==> !OkFor(before, Key(e.id, e.op)))
    && (!e.Stored? && e.op == Confirm ==> AllTried(before, s.orphaned, s.names))
  }

  ghost predicate LogOk(s: State) {
    forall p :: 0 <= p < |s.log| ==> EventOk(s, s.log[p], s.log[..p])
  }

  // ---------------------------------------------------------------------
  // Barriers

  /** Every barrier taken is accounted for. */
  ghost predicate Accounted(s: State, key: Key) {
    OkFor(s.log, key) || key in s.orphaned || key in s.nulled || Holds(s.worker, key)
  }

  predicate Holds(wk: Worker, key: Key) {
    wk.Calling? && wk.k < |wk.tx.branches| && CurrentKey(wk) == key
  }

  ghost predicate HeldOk(s: State) {
    && (forall key :: OkFor(s.log, key) ==> key in s.held)
    && (forall key :: key in s.held ==> Accounted(s, key))
    && s.orphaned <= s.held && s.nulled <= s.held
    && forall key :: key in s.nulled ==>
         key.op == Cancel && !OkFor(s.log, Key(key.branch, Try)) && Key(key.branch, Try) !in s.held
  }

  /** Taken by the current call only. */
  ghost predicate FreshClaim(s: State, key: Key) {
    key in s.held && key !in s.orphaned && key !in s.nulled && !OkFor(s.log, key)
  }

  // ---------------------------------------------------------------------
  // Passes

  predicate Done(s: State, pass: Pass, kind: TransactionKind, id: string) {
    var key := Key(id, OpOf(kind, pass));
    OkFor(s.log, key) || key in s.orphaned || (pass.Undoing? && key in s.nulled)
  }

  predicate DoneBelow(s: State, pass: Pass, kind: TransactionKind, bs: seq<Branch>, k: nat) {
    forall i: nat :: i < k && i < |bs| && (pass.Trying? ==> i < |s.names|) ==> Done(s, pass, kind, bs[i].id)
  }

  /** A submitted TCC branch shows Succeeded only after its try. */
  predicate Backed(s: State, tx: Transaction) {
    tx.kind.Tcc? ==> forall i: nat ::
      i < |tx.branches| && i < |s.names| && tx.branches[i].status.Succeeded? ==>
        Done(s, Pass.Trying, tx.kind, tx.branches[i].id)
  }

  predicate Copy(s: State, tx: Transaction) {
    && tx.kind == s.stored.kind && (tx.kind.Tcc? || tx.kind.Xa?)
    && SameDefinitions(tx.branches, s.stored.branches)
    && Backed(s, tx)
  }

  predicate StatusOk(s: State, tx: Transaction) {
    && (tx.status.Succeeded? ==> DoneBelow(s, Committing, tx.kind, tx.branches, |tx.branches|))
    && (tx.status.Aborted? ==> DoneBelow(s, Undoing, tx.kind, tx.branches, |tx.branches|))
    && (tx.kind.Tcc? && (tx.status.Prepared? || CommitStatus(tx.status)) ==>
          DoneBelow(s, Pass.Trying, tx.kind, tx.branches, |s.names|))
  }

  predicate StoredOk(s: State) {
    && Copy(s, s.stored) && StatusOk(s, s.stored)
    && |s.names| <= |s.stored.branches|
    && (forall i :: 0 <= i < |s.names| ==> s.stored.branches[i].id == s.names[i])
    && (CommitStored(s.log) ==> CommitStatus(s.stored.status) || s.stored.status.Failed?)
    && (AbortStored(s.log) ==> AbortStatus(s.stored.status) || s.stored.status.Failed?)
  }

  /** The stored statuses from which a pass runs. */
  predicate PassMayRun(s: State, pass: Pass) {
    match pass
    case Trying => s.stored.kind.Tcc? && (s.stored.status.Submitted? || s.stored.status.Trying?)
    case Committing => s.stored.status.Prepared? || s.stored.status.Succeeding?
    case Undoing => MayUndo(s.stored)
  }

  predicate MayStore(from: TransactionStatus, to: TransactionStatus) {
    && !from.IsTerminal()
    && (Undecided(to) ==> Undecided(from))
    && (CommitStatus(to) ==> !AbortStatus(from))
    && (AbortStatus(to) ==> !CommitStatus(from))
  }

  function Running(pass: Pass): TransactionStatus {
    match pass
    case Trying => TransactionStatus.Trying
    case Committing => Succeeding
    case Undoing => Aborting
  }

  predicate PassOk(s: State, pass: Pass, tx: Transaction, k: nat) {
    && Copy(s, tx) && PassMayRun(s, pass) && tx.status == Running(pass)
    && k <= |tx.branches| && DoneBelow(s, pass, tx.kind, tx.branches, k)
    && (tx.kind.Tcc? && pass.Committing? ==> DoneBelow(s, Pass.Trying, tx.kind, tx.branches, |s.names|))
  }

  ghost predicate WorkerOk(s: State, wk: Worker) {
    match wk
    case Idle => true
    case Persisting(tx) => Copy(s, tx) && StatusOk(s, tx) && MayStore(s.stored.status, tx.status)
    case Looping(pass, tx, k) => PassOk(s, pass, tx, k)
    case Calling(pass, tx, k, call) =>
      && PassOk(s, pass, tx, k) && k < |tx.branches|
      && if call == Replied(true) then OkFor(s.log, CurrentKey(wk)) else FreshClaim(s, CurrentKey(wk))
  }

  ghost predicate Inv(s: State) {
    StoredOk(s) && LogOk(s) && HeldOk(s) && WorkerOk(s, s.worker)
  }

  // ---------------------------------------------------------------------
  // Growing the log and the barriers

  lemma StoredAppend(log: seq<LogEvent>, e: LogEvent)
    ensures CommitStored(log + [e]) <==> CommitStored(log) || (e.Stored? && CommitStatus(e.status))
    ensures AbortStored(log + [e]) <==> AbortStored(log) || (e.Stored? && AbortStatus(e.status))
  {
    var more := log + [e];
    if CommitStored(log) {
      var p :| 0 <= p < |log| && log[p].Stored? && CommitStatus(log[p].status);
      assert more[p] == log[p];
    }
    if AbortStored(log) {
      var p :| 0 <= p < |log| && log[p].Stored? && AbortStatus(log[p].status);
      assert more[p] == log[p];
    }
    assert more[|log|] == e;
  }

  lemma LogAppend(s: State, s': State, e: LogEvent)
    requires LogOk(s) && EventOk(s, e, s.log) && s'.log == s.log + [e] && s'.orphaned == s.orphaned && s'.names == s.names
    ensures LogOk(s')
  {
    forall p | 0 <= p < |s'.log| ensures EventOk(s', s'.log[p], s'.log[..p]) {
      if p < |s.log| {
        assert s'.log[..p] == s.log[..p] && EventOk(s, s.log[p], s.log[..p]);
      } else {
        assert s'.log[..p] == s.log;
      }
    }
  }

  /** More is known in s'. */
  ghost predicate Later(s: State, s': State) {
    && s'.stored == s.stored && s'.names == s.names
    && (forall key :: OkFor(s.log, key) ==> OkFor(s'.log, key))
    && s.orphaned <= s'.orphaned && s.nulled <= s'.nulled
  }

  // ---------------------------------------------------------------------
  // Steps that leave record, log and barriers alone

  predicate SameOutside(s: State, s': State) {
    && s'.names == s.names && s'.stored == s.stored && s'.log == s.log
    && s'.held == s.held && s'.orphaned == s.orphaned && s'.nulled == s.nulled
  }

  lemma WorkerLater(s: State, s': State, wk: Worker)
    requires Later(s, s') && WorkerOk(s, wk)
    requires wk.Calling? && wk.call != Replied(true) ==> FreshClaim(s', CurrentKey(wk))
    ensures WorkerOk(s', wk)
  {
  }

  lemma Quiet(s: State, s': State)
    requires Inv(s) && SameOutside(s, s') && WorkerOk(s, s'.worker)
    requires forall key :: Holds(s.worker, key) ==> Holds(s'.worker, key) || OkFor(s.log, key)
    ensures Inv(s')
  {
    WorkerLater(s, s', s'.worker);
    assert LogOk(s') by {
      forall p | 0 <= p < |s'.log| ensures EventOk(s', s'.log[p], s'.log[..p]) {
        assert EventOk(s, s.log[p], s.log[..p]);
      }
    }
    assert HeldOk(s') by {
      forall key | key in s'.held ensures Accounted(s', key) { assert Accounted(s, key); }
    }
  }

  lemma BeginKeeps(s: State, request: Request)
    requires Inv(s) && s.worker.Idle?
    ensures Inv(s.(worker := BeginRequest(s.stored, request)))
  {
    Quiet(s, s.(worker := BeginRequest(s.stored, request)));
  }

  // ---------------------------------------------------------------------
  // Accepted writes

  lemma PersistStored(s: State, time: nat)
    requires Inv(s) && s.worker.Persisting?
    ensures StoredOk(PersistStep(s, time)) && LogOk(PersistStep(s, time))
  {
    var tx := s.worker.tx;
    var e, s' := Stored(tx.status), PersistStep(s, time);
    var mid := s.(log := s'.log);
    OkForAppend(s.log, e);
    StoredAppend(s.log, e);
    assert Backed(s', s'.stored) by {
      forall i: nat | tx.kind.Tcc? && i < |tx.branches| && i < |s.names| && tx.branches[i].status.Succeeded?
        ensures Done(s', Pass.Trying, tx.kind, tx.branches[i].id) {
        assert Done(mid, Pass.Trying, tx.kind, tx.branches[i].id);
      }
    }
    assert StatusOk(s', s'.stored);
    forall i | 0 <= i < |s.names| ensures tx.branches[i].id == s.names[i] {
      assert Definition(tx.branches[i]) == Definition(s.stored.branches[i]);
    }
    LogAppend(s, s', e);
  }

  lemma PersistKeeps(s: State, time: nat)
    requires Inv(s)
    ensures Inv(PersistStep(s, time))
  {
    if s.worker.Persisting? {
      var s' := PersistStep(s, time);
      PersistStored(s, time);
      OkForAppend(s.log, Stored(s.worker.tx.status));
      forall key | key in s'.held ensures Accounted(s', key) { assert Accounted(s, key); }
    }
  }

  // ---------------------------------------------------------------------
  // Barriers in a pass

  lemma LogOrphans(s: State, s': State)
    requires LogOk(s) && s'.log == s.log && s'.names == s.names && s.orphaned <= s'.orphaned
    ensures LogOk(s')
  {
  }

  /** A barrier is taken: by the call that follows, as an orphan, or as a null compensation. */
  lemma Takes(s: State, s': State, key: Key)
    requires HeldOk(s) && !s.worker.Calling? && s'.log == s.log && s'.held == s.held + {key}
    requires Decide(s.held, key) == Execute || Decide(s.held, key) == SkipNullCompensation
    requires s.orphaned <= s'.orphaned <= s.orphaned + {key}
    requires s'.nulled == s.nulled || (s'.nulled == s.nulled + {key} && Decide(s.held, key) == SkipNullCompensation)
    requires key in s'.orphaned || key in s'.nulled || Holds(s'.worker, key)
    ensures HeldOk(s')
    ensures !OkFor(s.log, key) && key !in s.orphaned && key !in s.nulled
  {
  }

  lemma EditOne(s: State, tx: Transaction, i: nat, b: Branch)
    requires Copy(s, tx) && i < |tx.branches| && Definition(b) == Definition(tx.branches[i])
    requires tx.kind.Tcc? && i < |s.names| && b.status.Succeeded? ==>
               tx.branches[i].status.Succeeded? || Done(s, Pass.Trying, tx.kind, b.id)
    ensures Copy(s, tx.(branches := tx.branches[i := b]))
  {
  }

  lemma StoredLater(s: State, s': State)
    requires Later(s, s') && StoredOk(s)
    requires CommitStored(s'.log) ==> CommitStored(s.log)
    requires AbortStored(s'.log) ==> AbortStored(s.log)
    ensures StoredOk(s')
  {
  }

  lemma PassLater(s: State, s': State, pass: Pass, tx: Transaction, k: nat)
    requires Later(s, s') && PassOk(s, pass, tx, k)
    ensures PassOk(s', pass, tx, k)
  {
  }

  lemma ClaimKeeps(s: State, pass: Pass, tx: Transaction, k: nat)
    requires Inv(s) && s.worker == Looping(pass, tx, k) && k < |tx.branches|
    requires Calls(tx.branches[k], Decide(s.held, KeyAt(pass, tx, k)))
    ensures Inv(Claim(s, pass, tx, k))
  {
    var key, s' := KeyAt(pass, tx, k), Claim(s, pass, tx, k);
    Takes(s, s', key);
    LogOrphans(s, s');
    if s'.worker.Calling? {
      EditOne(s, tx, k, s'.worker.tx.branches[k]);
      ClaimPass(s, pass, tx, k, s'.worker.tx);
      PassLater(s, s', pass, s'.worker.tx, k);
    }
  }

  lemma ClaimPass(s: State, pass: Pass, tx: Transaction, k: nat, tx': Transaction)
    requires PassOk(s, pass, tx, k) && Copy(s, tx') && tx'.kind == tx.kind && tx'.status == tx.status
    requires SameDefinitions(tx.branches, tx'.branches)
    ensures PassOk(s, pass, tx', k)
  {
  }

  lemma NextDone(s: State, pass: Pass, tx: Transaction, k: nat)
    requires PassOk(s, pass, tx, k) && k < |tx.branches|
    requires (pass.Trying? && k >= |s.names|) || Done(s, pass, tx.kind, tx.branches[k].id)
    ensures PassOk(s, pass, tx, k + 1)
  {
  }

  /** A branch that the pass goes past was dealt with before. */
  lemma PassedKeeps(s: State, pass: Pass, tx: Transaction, k: nat)
    requires Inv(s) && s.worker == Looping(pass, tx, k) && k < |tx.branches|
    requires (pass.Trying? && tx.branches[k].status.Succeeded?) || KeyAt(pass, tx, k) in s.held
    ensures Inv(s.(worker := Looping(pass, tx, k + 1)))
  {
    if KeyAt(pass, tx, k) in s.held { assert Accounted(s, KeyAt(pass, tx, k)); }
    NextDone(s, pass, tx, k);
    Quiet(s, s.(worker := Looping(pass, tx, k + 1)));
  }

  lemma NullKeeps(s: State, pass: Pass, tx: Transaction, k: nat)
    requires Inv(s) && s.worker == Looping(pass, tx, k) && k < |tx.branches|
    requires Decide(s.held, KeyAt(pass, tx, k)) == SkipNullCompensation && tx.branches[k].action != ""
    ensures Inv(AdvanceLoop(s, pass, tx, k))
  {
    var key, s' := KeyAt(pass, tx, k), AdvanceLoop(s, pass, tx, k);
    var tx' := Put(tx, k, BranchStatus.Skipped, None);
    Takes(s, s', key);
    LogOrphans(s, s');
    ClaimPass(s, pass, tx, k, tx');
    NextDone(s', pass, tx', k);
  }

  lemma CancelledKeeps(s: State, pass: Pass, tx: Transaction, k: nat)
    requires Inv(s) && s.worker == Looping(pass, tx, k) && k < |tx.branches|
    requires Decide(s.held, KeyAt(pass, tx, k)) == SkipCancelledTry && !tx.branches[k].status.Succeeded?
    ensures Inv(AdvanceLoop(s, pass, tx, k))
  {
    Quiet(s, AdvanceLoop(s, pass, tx, k));
  }

  lemma LoopKeeps(s: State, pass: Pass, tx: Transaction, k: nat)
    requires Inv(s) && s.worker == Looping(pass, tx, k) && k < |tx.branches|
    ensures Inv(AdvanceLoop(s, pass, tx, k))
  {
    var decision := Decide(s.held, KeyAt(pass, tx, k));
    if pass.Trying? && tx.branches[k].status.Succeeded? { PassedKeeps(s, pass, tx, k);
    } else if Calls(tx.branches[k], decision) { ClaimKeeps(s, pass, tx, k);
    } else if decision == SkipNullCompensation { NullKeeps(s, pass, tx, k);
    } else if decision == SkipDuplicate { PassedKeeps(s, pass, tx, k);
    } else { CancelledKeeps(s, pass, tx, k); }
  }

  lemma EndKeeps(s: State, pass: Pass, tx: Transaction)
    requires Inv(s) && s.worker == Looping(pass, tx, |tx.branches|)
    ensures Inv(s.(worker := Persisting(tx.(status := Finished(pass)))))
  {
    var tx' := tx.(status := Finished(pass));
    assert StatusOk(s, tx');
    Quiet(s, s.(worker := Persisting(tx')));
  }

  lemma FinishOk(s: State, pass: Pass, tx: Transaction, k: nat, retryAt: nat)
    requires Inv(s) && s.worker == Calling(pass, tx, k, Replied(true))
    ensures Inv(FinishCall(s, pass, tx, k, true, retryAt))
  {
    var s' := FinishCall(s, pass, tx, k, true, retryAt);
    var tx' := s'.worker.tx;
    ClaimPass(s, pass, tx, k, tx');
    NextDone(s, pass, tx', k);
    Quiet(s, s');
  }

  lemma ReleaseKeeps(s: State, s': State, key: Key)
    requires HeldOk(s) && Holds(s.worker, key) && FreshClaim(s, key) && !s'.worker.Calling?
    requires s'.log == s.log && s'.orphaned == s.orphaned && s'.nulled == s.nulled && s'.held == s.held - {key}
    ensures HeldOk(s')
  {
  }

  lemma FailureStatus(s: State, pass: Pass, tx: Transaction, k: nat, tx': Transaction)
    requires PassOk(s, pass, tx, k) && SameDefinitions(tx.branches, tx'.branches) && tx'.kind == tx.kind
    requires tx'.status == tx.status || (pass.Trying? && tx'.status.Aborting?)
    ensures StatusOk(s, tx') && MayStore(s.stored.status, tx'.status)
  {
  }

  lemma FinishFailed(s: State, pass: Pass, tx: Transaction, k: nat, retryAt: nat)
    requires Inv(s) && s.worker == Calling(pass, tx, k, Replied(false))
    ensures Inv(FinishCall(s, pass, tx, k, false, retryAt))
  {
    var s' := FinishCall(s, pass, tx, k, false, retryAt);
    var tx' := s'.worker.tx;
    FailureStatus(s, pass, tx, k, tx');
    ReleaseKeeps(s, s', KeyAt(pass, tx, k));
    LogOrphans(s, s');
  }

  lemma AdvanceKeeps(s: State, retryAt: nat)
    requires Inv(s)
    ensures Inv(AdvanceStep(s, retryAt))
  {
    match s.worker
    case Looping(pass, tx, k) =>
      if k < |tx.branches| { LoopKeeps(s, pass, tx, k); } else { EndKeeps(s, pass, tx); }
    case Calling(pass, tx, k, Replied(ok)) =>
      if ok { FinishOk(s, pass, tx, k, retryAt); } else { FinishFailed(s, pass, tx, k, retryAt); }
    case _ =>
  }

  // ---------------------------------------------------------------------
  // Calls and stops

  lemma MayCall(s: State, e: LogEvent)
    requires Inv(s) && s.worker.Calling? && s.worker.call != Replied(true)
    requires !e.Stored? && Key(e.id, e.op) == CurrentKey(s.worker)
    ensures EventOk(s, e, s.log)
  {
  }

  lemma CallKeeps(s: State, e: LogEvent, call: Call)
    requires Inv(s) && s.worker.Calling? && s.worker.call != Replied(true)
    requires !e.Stored? && Key(e.id, e.op) == CurrentKey(s.worker)
    requires (e.Issued? && call == Open) || (e.Answered? && call == Replied(e.ok))
    ensures Inv(s.(log := s.log + [e], worker := s.worker.(call := call)))
  {
    var wk := s.worker;
    var s' := s.(log := s.log + [e], worker := wk.(call := call));
    MayCall(s, e);
    OkForAppend(s.log, e);
    StoredAppend(s.log, e);
    LogAppend(s, s', e);
    PassLater(s, s', wk.pass, wk.tx, wk.k);
    StoredLater(s, s');
    assert HeldOk(s') by {
      forall key | key in s'.held ensures Accounted(s', key) { assert Accounted(s, key); }
    }
  }

  lemma CrashKeeps(s: State)
    requires Inv(s)
    ensures Inv(CrashStep(s))
  {
    var s' := CrashStep(s);
    LogOrphans(s, s');
    forall key | key in s'.held ensures Accounted(s', key) { assert Accounted(s, key); }
  }

  lemma RegisterKeeps(s: State, b: Branch, now: nat)
    requires Inv(s) && s.worker.Idle?
    ensures Inv(s.(stored := Registered(s.stored, b, now)))
  {
  }

  lemma StepKeeps(s: State, e: Event)
    requires Inv(s)
    ensures Inv(Step(s, e))
  {
    match e
    case Begin(request) => if s.worker.Idle? { BeginKeeps(s, request); }
    case Scan(_) => Quiet(s, Step(s, e));
    case Recover(request) => if s.worker.Idle? && request in s.scans { BeginKeeps(s, request); }
    case Register(b, now) => if s.worker.Idle? { RegisterKeeps(s, b, now); }
    case Persist(time) => PersistKeeps(s, time);
    case Advance(retryAt) => AdvanceKeeps(s, retryAt);
    case Issue(at) =>
      if CallAt(s.worker, Spawned) {
        var key := CurrentKey(s.worker);
        CallKeeps(s, Issued(key.op, s.worker.k, key.branch, at), Open);
      }
    case Answer(ok) =>
      if CallAt(s.worker, Open) {
        var key := CurrentKey(s.worker);
        CallKeeps(s, Answered(key.op, s.worker.k, key.branch, ok), Replied(ok));
      }
    case Crash => CrashKeeps(s);
  }

  lemma {:induction false} ExecKeeps(s: State, es: seq<Event>)
    requires Inv(s)
    ensures Inv(Exec(s, es))
    decreases |es|
  {
    if es != [] {
      StepKeeps(s, es[0]);
      ExecKeeps(Step(s, es[0]), es[1..]);
    }
  }

  lemma FreshInv(s: State)
    requires Fresh(s)
    ensures Inv(s)
  {
  }

  // ---------------------------------------------------------------------
  // Whole runs

  /** Global decisions go one way: after a stored Succeeding or Succeeded, no try, cancel or rollback
      is called or answered and no other decision stored; after a stored Aborting or Aborted, no try,
      confirm or commit is called or answered and no other decision stored. */
  lemma DecisionsAreOneWay(s: State, es: seq<Event>, p: nat, q: nat)
    requires Fresh(s) && p < q < |Exec(s, es).log| && Exec(s, es).log[p].Stored?
    ensures CommitStatus(Exec(s, es).log[p].status) ==> !NotAfterCommit(Exec(s, es).log[q])
    ensures AbortStatus(Exec(s, es).log[p].status) ==> !NotAfterAbort(Exec(s, es).log[q])
  {
    FreshInv(s);
    ExecKeeps(s, es);
    var end := Exec(s, es);
    assert EventOk(end, end.log[q], end.log[..q]);
    assert end.log[..q][p] == end.log[p];
  }

  /** A confirm is called only after a success for the try barrier of every submitted id, except
      barriers orphaned by then: at every point of every run where one is issued, the log and the
      orphans of that point say so. */
  lemma ConfirmsAfterTries(s: State, es: seq<Event>)
    requires Fresh(s) && CallAt(Exec(s, es).worker, Spawned) && CurrentKey(Exec(s, es).worker).op == Confirm
    ensures AllTried(Exec(s, es).log, Exec(s, es).orphaned, s.names)
  {
    FreshInv(s);
    ExecKeeps(s, es);
    NamesStay(s, es);
    var now := Exec(s, es);
    MayCall(now, Issued(Confirm, now.worker.k, CurrentKey(now.worker).branch, 0));
  }

  lemma {:induction false} NamesStay(s: State, es: seq<Event>)
    ensures Exec(s, es).names == s.names
    decreases |es|
  {
    if es != [] { NamesStay(Step(s, es[0]), es[1..]); }
  }

  /** Every confirm in the log of a run comes after the tries, up to the orphans of the whole run. */
  lemma ConfirmsInLogAfterTries(s: State, es: seq<Event>, p: nat)
    requires Fresh(s)
    requires p < |Exec(s, es).log| && !Exec(s, es).log[p].Stored? && Exec(s, es).log[p].op == Confirm
    ensures AllTried(Exec(s, es).log[..p], Exec(s, es).orphaned, Exec(s, es).names)
  {
    FreshInv(s);
    ExecKeeps(s, es);
    assert EventOk(Exec(s, es), Exec(s, es).log[p], Exec(s, es).log[..p]);
  }

  /** After a call was answered with success, its barrier is never called again. */
  lemma SucceedsOnce(s: State, es: seq<Event>, p: nat, q: nat)
    requires Fresh(s) && p < q < |Exec(s, es).log|
    requires Exec(s, es).log[p].Answered? && Exec(s, es).log[p].ok && !Exec(s, es).log[q].Stored?
    ensures Key(Exec(s, es).log[p].id, Exec(s, es).log[p].op) != Key(Exec(s, es).log[q].id, Exec(s, es).log[q].op)
  {
    FreshInv(s);
    ExecKeeps(s, es);
    var end := Exec(s, es);
    assert EventOk(end, end.log[q], end.log[..q]);
    assert SuccessOf(end.log[..q][p], Key(end.log[p].id, end.log[p].op));
  }

  /** What the final statuses mean, barrier by barrier: a stored Succeeded means that the branch was
      committed; a stored Aborted that it was rolled back, and for TCC that a branch whose try holds its
      barrier, because it succeeded or its outcome is unknown, was cancelled. The exceptions are the
      barriers orphaned by stopped passes. */
  lemma FinalStatus(s: State, es: seq<Event>, i: nat)
    requires Fresh(s) && i < |Exec(s, es).stored.branches|
    ensures var end := Exec(s, es);
            var id, kind := end.stored.branches[i].id, end.stored.kind;
            && (end.stored.status.Succeeded? ==>
                  var key := Key(id, OpOf(kind, Committing)); OkFor(end.log, key) || key in end.orphaned)
            && (end.stored.status.Aborted? && (kind.Xa? || Key(id, Try) in end.held) ==>
                  var key := Key(id, OpOf(kind, Undoing)); OkFor(end.log, key) || key in end.orphaned)
  {
    FreshInv(s);
    ExecKeeps(s, es);
    var end := Exec(s, es);
    var id, kind := end.stored.branches[i].id, end.stored.kind;
    if end.stored.status.Succeeded? { assert Done(end, Committing, kind, id); }
    if end.stored.status.Aborted? { assert Done(end, Undoing, kind, id); }
  }

  // ---------------------------------------------------------------------
  // Without stops there are no exceptions

  predicate Callable(kind: TransactionKind, b: Branch) {
    CallUrl(kind, Committing, b).Some? && CallUrl(kind, Undoing, b).Some?
  }

  predicate AllCallable(kind: TransactionKind, bs: seq<Branch>) {
    forall i :: 0 <= i < |bs| ==> Callable(kind, bs[i])
  }

  /** The pass is not stopped, and whatever is registered can be called. */
  predicate Orderly(kind: TransactionKind, e: Event) {
    !e.Crash? && (e.Register? ==> Callable(kind, e.branch))
  }

  lemma CompleteCopies(s: State)
    requires Inv(s) && AllCallable(s.stored.kind, s.stored.branches)
    ensures !s.worker.Idle? ==> AllCallable(s.stored.kind, s.worker.tx.branches)
  {
    if !s.worker.Idle? {
      var bs := s.worker.tx.branches;
      forall i | 0 <= i < |bs| ensures Callable(s.stored.kind, bs[i]) {
        assert Definition(bs[i]) == Definition(s.stored.branches[i]);
      }
    }
  }

  lemma OrderlyStep(s: State, e: Event)
    requires Inv(s) && AllCallable(s.stored.kind, s.stored.branches) && s.orphaned == {} && Orderly(s.stored.kind, e)
    ensures var s' := Step(s, e);
            s'.stored.kind == s.stored.kind && AllCallable(s'.stored.kind, s'.stored.branches) && s'.orphaned == {}
  {
    CompleteCopies(s);
    if e.Advance? && s.worker.Looping? && s.worker.k < |s.worker.tx.branches| {
      assert Callable(s.stored.kind, s.worker.tx.branches[s.worker.k]);
      assert CallUrl(s.stored.kind, s.worker.pass, s.worker.tx.branches[s.worker.k]).Some?;
    }
  }

  lemma {:induction false} OrderlyRuns(s: State, es: seq<Event>)
    requires Inv(s) && AllCallable(s.stored.kind, s.stored.branches) && s.orphaned == {}
    requires forall k :: 0 <= k < |es| ==> Orderly(s.stored.kind, es[k])
    ensures Exec(s, es).orphaned == {}
    decreases |es|
  {
    if es != [] {
      OrderlyStep(s, es[0]);
      StepKeeps(s, es[0]);
      OrderlyRuns(Step(s, es[0]), es[1..]);
    }
  }

  /** In a run where no pass stops early, the final statuses mean what they say, barrier by barrier:
      Succeeded that it was committed; Aborted that it was rolled back, or cancelled where its try
      holds. */
  lemma OrderlyRunsLoseNothing(s: State, es: seq<Event>, i: nat)
    requires Fresh(s) && AllCallable(s.stored.kind, s.stored.branches)
    requires forall k :: 0 <= k < |es| ==> Orderly(s.stored.kind, es[k])
    requires i < |Exec(s, es).stored.branches|
    ensures var end := Exec(s, es);
            var id, kind := end.stored.branches[i].id, end.stored.kind;
            && (end.stored.status.Succeeded? ==> OkFor(end.log, Key(id, OpOf(kind, Committing))))
            && (end.stored.status.Aborted? && (kind.Xa? || Key(id, Try) in end.held) ==>
                  OkFor(end.log, Key(id, OpOf(kind, Undoing))))
  {
    FreshInv(s);
    OrderlyRuns(s, es);
    FinalStatus(s, es, i);
  }
}
