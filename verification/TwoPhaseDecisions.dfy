/** Whether a decision is stored before it is acted on. confirm_tcc and commit_xa entered at Prepared,
    and cancel_tcc and rollback_xa entered before Aborting is stored, call branches first and store
    the decision at the end; a stop in between leaves the transaction open to the other decision. */
module TwoPhaseDecisions {
  import opened Core
  import opened Edits
  import opened TwoPhase
  import opened TwoPhaseSafety

  predicate IsCommit(e: LogEvent) { e.Issued? && (e.op == Confirm || e.op == Commit) }
  predicate IsUndo(e: LogEvent) { e.Issued? && (e.op == Cancel || e.op == Rollback) }

  /** Every commit call follows a stored commit decision, every undo call a stored abort decision. */
  predicate DecidedBefore(e: LogEvent, before: seq<LogEvent>) {
    (IsCommit(e) ==> CommitStored(before)) && (IsUndo(e) ==> AbortStored(before))
  }

  ghost predicate DecidesFirst(log: seq<LogEvent>) {
    forall p :: 0 <= p < |log| ==> DecidedBefore(log[p], log[..p])
  }

  // ---------------------------------------------------------------------
  // The condition on a request

  /** Whether a pass over bs from branch k on calls some branch. */
  predicate WouldCall(pass: Pass, tx: Transaction, k: nat, held: set<Key>)
    decreases |tx.branches| - k
  {
    k < |tx.branches| &&
    var key := KeyAt(pass, tx, k);
    var decision := Decide(held, key);
    if Calls(tx.branches[k], decision) then CallUrl(tx.kind, pass, tx.branches[k]).Some?
    else WouldCall(pass, tx, k + 1, Hold(held, key))
  }

  /** The barriers held when such a pass comes to its first call. */
  function HeldAtCall(pass: Pass, tx: Transaction, k: nat, held: set<Key>): set<Key>
    decreases |tx.branches| - k
  {
    if k >= |tx.branches| || Calls(tx.branches[k], Decide(held, KeyAt(pass, tx, k))) then held
    else HeldAtCall(pass, tx, k + 1, Hold(held, KeyAt(pass, tx, k)))
  }

  /** The decision behind the request is stored already, or the request calls nothing. */
  predicate Safe(s: State, request: Request) {
    match request
    case Complete =>
      s.stored.status.Prepared? ==> !WouldCall(Committing, s.stored.(status := Succeeding), 0, s.held)
    case Undo =>
      MayUndo(s.stored) && !s.stored.status.Aborting? ==> !WouldCall(Undoing, s.stored.(status := Aborting), 0, s.held)
    case _ => true
  }

  function Asked(s: State, e: Event): Option<Request> {
    match e
    case Begin(request) => if s.worker.Idle? then Some(request) else None
    case Recover(request) => if s.worker.Idle? && request in s.scans then Some(request) else None
    case _ => None
  }

  ghost predicate AsksSafely(s: State, es: seq<Event>)
    decreases |es|
  {
    es != [] ==>
      && (Asked(s, es[0]).Some? ==> Safe(s, Asked(s, es[0]).value))
      && AsksSafely(Step(s, es[0]), es[1..])
  }

  /** A pass that commits or undoes runs on a stored decision, or has nothing to call. */
  ghost predicate Backing(s: State, wk: Worker) {
    match wk
    case Looping(pass, tx, k) => pass.Trying? || DecisionStored(s, pass) || !WouldCall(pass, tx, k, s.held)
    case Calling(pass, tx, k, call) => pass.Trying? || DecisionStored(s, pass)
    case _ => true
  }

  ghost predicate DecisionStored(s: State, pass: Pass) {
    if pass.Committing? then CommitStored(s.log) else AbortStored(s.log)
  }

  /** The stored decisions show in the log. */
  ghost predicate Logged(s: State) {
    && (s.stored.status.Succeeding? ==> CommitStored(s.log))
    && (s.stored.status.Aborting? ==> AbortStored(s.log))
  }

  ghost predicate Safely(s: State) {
    DecidesFirst(s.log) && Logged(s) && Backing(s, s.worker)
  }

  // ---------------------------------------------------------------------
  // Safe requests suffice

  lemma DecidesAppend(log: seq<LogEvent>, e: LogEvent)
    requires DecidesFirst(log) && DecidedBefore(e, log)
    ensures DecidesFirst(log + [e])
  {
    var more := log + [e];
    forall p | 0 <= p < |more| ensures DecidedBefore(more[p], more[..p]) {
      if p < |log| { assert more[..p] == log[..p]; } else { assert more[..p] == log; }
    }
  }

  lemma BeginSafely(s: State, request: Request)
    requires Safely(s) && Safe(s, request)
    ensures Safely(s.(worker := BeginRequest(s.stored, request)))
  {
  }

  /** Branches behind the pass no longer matter. */
  lemma {:induction false} WouldCallSame(pass: Pass, a: Transaction, b: Transaction, k: nat, held: set<Key>)
    requires |a.branches| == |b.branches| && a.kind == b.kind
    requires forall i: nat :: k <= i < |a.branches| ==> a.branches[i] == b.branches[i]
    ensures WouldCall(pass, a, k, held) == WouldCall(pass, b, k, held)
    ensures HeldAtCall(pass, a, k, held) == HeldAtCall(pass, b, k, held)
    decreases |a.branches| - k
  {
    if k < |a.branches| { WouldCallSame(pass, a, b, k + 1, Hold(held, KeyAt(pass, a, k))); }
  }

  lemma LoopSafely(s: State, pass: Pass, tx: Transaction, k: nat)
    requires Safely(s) && s.worker == Looping(pass, tx, k) && k < |tx.branches|
    ensures Safely(AdvanceLoop(s, pass, tx, k))
  {
    var s' := AdvanceLoop(s, pass, tx, k);
    if s'.worker.Looping? {
      WouldCallSame(pass, tx, s'.worker.tx, k + 1, s'.held);
      assert !(pass.Trying?) ==> s'.held == Hold(s.held, KeyAt(pass, tx, k));
    }
  }

  lemma FinishSafely(s: State, pass: Pass, tx: Transaction, k: nat, ok: bool, retryAt: nat)
    requires Safely(s) && s.worker == Calling(pass, tx, k, Replied(ok)) && k < |tx.branches|
    ensures Safely(FinishCall(s, pass, tx, k, ok, retryAt))
  {
  }

  lemma AdvanceSafely(s: State, retryAt: nat)
    requires Safely(s)
    ensures Safely(AdvanceStep(s, retryAt))
  {
    match s.worker
    case Looping(pass, tx, k) => if k < |tx.branches| { LoopSafely(s, pass, tx, k); }
    case Calling(pass, tx, k, Replied(ok)) => if k < |tx.branches| { FinishSafely(s, pass, tx, k, ok, retryAt); }
    case _ =>
  }

  lemma CallSafely(s: State, e: LogEvent, call: Call)
    requires Inv(s) && Safely(s) && s.worker.Calling? && !e.Stored? && e.op == CurrentKey(s.worker).op
    ensures Safely(s.(log := s.log + [e], worker := s.worker.(call := call)))
  {
    DecidesAppend(s.log, e);
    StoredAppend(s.log, e);
  }

  lemma StepSafely(s: State, e: Event)
    requires Inv(s) && Safely(s) && (Asked(s, e).Some? ==> Safe(s, Asked(s, e).value))
    ensures Safely(Step(s, e))
  {
    match e
    case Begin(request) => if s.worker.Idle? { BeginSafely(s, request); }
    case Recover(request) => if s.worker.Idle? && request in s.scans { BeginSafely(s, request); }
    case Persist(time) =>
      if s.worker.Persisting? {
        DecidesAppend(s.log, Stored(s.worker.tx.status));
        StoredAppend(s.log, Stored(s.worker.tx.status));
      }
    case Advance(retryAt) => AdvanceSafely(s, retryAt);
    case Issue(at) =>
      if CallAt(s.worker, Spawned) {
        var key := CurrentKey(s.worker);
        CallSafely(s, Issued(key.op, s.worker.k, key.branch, at), Open);
      }
    case Answer(ok) =>
      if CallAt(s.worker, Open) {
        var key := CurrentKey(s.worker);
        CallSafely(s, Answered(key.op, s.worker.k, key.branch, ok), Replied(ok));
      }
    case _ =>
  }

  lemma {:induction false} ExecSafely(s: State, es: seq<Event>)
    requires Inv(s) && Safely(s) && AsksSafely(s, es)
    ensures Safely(Exec(s, es))
    decreases |es|
  {
    if es != [] {
      StepSafely(s, es[0]);
      StepKeeps(s, es[0]);
      ExecSafely(Step(s, es[0]), es[1..]);
    }
  }

  /** No run mixes the two outcomes. */
  predicate Mixed(log: seq<LogEvent>) {
    exists p, q :: 0 <= p < |log| && 0 <= q < |log| && IsCommit(log[p]) && IsUndo(log[q])
  }

  lemma StoredBefore(log: seq<LogEvent>, p: nat, commit: bool) returns (d: nat)
    requires p <= |log| && if commit then CommitStored(log[..p]) else AbortStored(log[..p])
    ensures d < p && log[d].Stored? && if commit then CommitStatus(log[d].status) else AbortStatus(log[d].status)
  {
    if commit {
      d :| 0 <= d < p && log[..p][d].Stored? && CommitStatus(log[..p][d].status);
    } else {
      d :| 0 <= d < p && log[..p][d].Stored? && AbortStatus(log[..p][d].status);
    }
  }

  /** Two stored decisions on one log agree. */
  ghost predicate OneDecision(log: seq<LogEvent>) {
    forall p, q :: 0 <= p < |log| && 0 <= q < |log| && log[p].Stored? && log[q].Stored? ==>
      !(CommitStatus(log[p].status) && AbortStatus(log[q].status))
  }

  lemma RunsDecideOnce(s: State, es: seq<Event>)
    requires Fresh(s)
    ensures OneDecision(Exec(s, es).log)
  {
    var log := Exec(s, es).log;
    forall p, q | 0 <= p < |log| && 0 <= q < |log| && log[p].Stored? && log[q].Stored?
      ensures !(CommitStatus(log[p].status) && AbortStatus(log[q].status)) {
      if p < q { DecisionsAreOneWay(s, es, p, q); }
      if q < p { DecisionsAreOneWay(s, es, q, p); }
    }
  }

  lemma NeverMixed(log: seq<LogEvent>, p: nat, q: nat)
    requires DecidesFirst(log) && OneDecision(log) && p < |log| && q < |log|
    ensures !(IsCommit(log[p]) && IsUndo(log[q]))
  {
    if IsCommit(log[p]) && IsUndo(log[q]) {
      assert DecidedBefore(log[p], log[..p]) && DecidedBefore(log[q], log[..q]);
      var c := StoredBefore(log, p, true);
      var a := StoredBefore(log, q, false);
      assert false;
    }
  }

  /** If every request is safe when it starts, then every commit and undo call follows its stored
      decision, and no run calls both a commit and an undo, wherever passes stop. */
  lemma SafeRequestsDecideFirst(s: State, es: seq<Event>)
    requires Fresh(s) && AsksSafely(s, es)
    ensures DecidesFirst(Exec(s, es).log) && !Mixed(Exec(s, es).log)
  {
    FreshInv(s);
    ExecSafely(s, es);
    RunsDecideOnce(s, es);
    var log := Exec(s, es).log;
    forall p, q | 0 <= p < |log| && 0 <= q < |log| ensures !(IsCommit(log[p]) && IsUndo(log[q])) {
      NeverMixed(log, p, q);
    }
  }

  // ---------------------------------------------------------------------
  // Unsafe requests do not

  lemma {:induction false} ExecAppend(s: State, a: seq<Event>, b: seq<Event>)
    ensures Exec(s, a + b) == Exec(Exec(s, a), b)
    decreases |a|
  {
    if a == [] {
      assert a + b == b;
    } else {
      assert (a + b)[1..] == a[1..] + b;
      ExecAppend(Step(s, a[0]), a[1..], b);
    }
  }

  lemma {:induction false} ReachesCall(s: State) returns (es: seq<Event>)
    requires s.worker.Looping? && !s.worker.pass.Trying? && WouldCall(s.worker.pass, s.worker.tx, s.worker.k, s.held)
    ensures var t := Exec(s, es);
            && CallAt(t.worker, Spawned) && t.worker.pass == s.worker.pass && t.worker.tx.kind == s.worker.tx.kind
            && t.log == s.log && t.stored == s.stored
            && CurrentKey(t.worker) !in HeldAtCall(s.worker.pass, s.worker.tx, s.worker.k, s.held)
            && t.held == HeldAtCall(s.worker.pass, s.worker.tx, s.worker.k, s.held) + {CurrentKey(t.worker)}
    decreases |s.worker.tx.branches| - s.worker.k
  {
    var Looping(pass, tx, k) := s.worker;
    var s' := Step(s, Advance(0));
    if Calls(tx.branches[k], Decide(s.held, KeyAt(pass, tx, k))) {
      es := [Advance(0)];
      assert Exec(s', es[1..]) == s';
    } else {
      WouldCallSame(pass, tx, s'.worker.tx, k + 1, s'.held);
      assert s'.held == Hold(s.held, KeyAt(pass, tx, k));
      var rest := ReachesCall(s');
      es := [Advance(0)] + rest;
      assert es[1..] == rest;
    }
  }

  /** Every unsafe request can call a branch before its decision is stored. */
  lemma UnsafeRequestsCallFirst(s: State, request: Request) returns (es: seq<Event>)
    requires Inv(s) && s.worker.Idle? && !Safe(s, request)
    ensures !DecidesFirst(Exec(s, [Begin(request)] + es).log)
  {
    var s' := Step(s, Begin(request));
    var reach := ReachesCall(s');
    var t := Exec(s', reach);
    var t' := Step(t, Issue(0));
    assert Exec(t', []) == t' && Exec(t, [Issue(0)]) == Exec(t', []);
    ExecAppend(s', reach, [Issue(0)]);
    es := reach + [Issue(0)];
    assert ([Begin(request)] + es)[1..] == es;
    var p := |s.log|;
    assert t'.log[..p] == s.log && (IsCommit(t'.log[p]) || IsUndo(t'.log[p]));
    assert !DecidedBefore(t'.log[p], t'.log[..p]);
  }

  lemma RunFour(s: State, a: Event, b: Event, c: Event, d: Event)
    ensures Exec(s, [a, b, c, d]) == Step(Step(Step(Step(s, a), b), c), d)
  {
    var s1 := Step(s, a);
    var s2 := Step(s1, b);
    var s3 := Step(s2, c);
    assert Exec(s3, [d]) == Exec(Step(s3, d), []);
    assert [c, d][1..] == [d];
    assert Exec(s2, [c, d]) == Exec(s3, [d]);
    assert [b, c, d][1..] == [c, d];
    assert Exec(s1, [b, c, d]) == Exec(s2, [c, d]);
    assert [a, b, c, d][1..] == [b, c, d];
  }

  const TRY: seq<Event> := [Begin(Prepare), Advance(0), Issue(0), Answer(true)]
  const PREPARED: seq<Event> := [Advance(0), Advance(0), Persist(0), Begin(Complete)]
  const CONFIRM_AND_STOP: seq<Event> := [Advance(0), Issue(0), Answer(true), Crash]
  const CANCEL: seq<Event> := [Begin(Undo), Advance(0), Issue(0), Answer(true)]

  predicate OneBranch(tx: Transaction, b: Branch) {
    && tx.kind.Tcc? && |tx.branches| == 1 && Definition(tx.branches[0]) == Definition(b)
    && b.confirm.Some? && b.cancel.Some?
  }

  lemma TryStarts(s: State, b: Branch)
    requires Fresh(s) && OneBranch(s.stored, b)
    ensures var t := Step(Step(s, Begin(Prepare)), Advance(0));
            CallAt(t.worker, Spawned) && t.worker.pass.Trying? && OneBranch(t.worker.tx, b) && t.held == {Key(b.id, Try)}
  {
    assert Step(s, Begin(Prepare)).worker == Looping(Pass.Trying, s.stored.(status := TransactionStatus.Trying), 0);
    assert Decide({}, Key(b.id, Try)) == Execute;
  }

  lemma TryRuns(s: State, b: Branch)
    requires Fresh(s) && OneBranch(s.stored, b)
    ensures var t := Exec(s, TRY);
            && t.worker.Calling? && t.worker == Calling(Pass.Trying, t.worker.tx, 0, Replied(true))
            && OneBranch(t.worker.tx, b) && t.held == {Key(b.id, Try)}
  {
    TryStarts(s, b);
    RunFour(s, Begin(Prepare), Advance(0), Issue(0), Answer(true));
  }

  lemma PreparedRuns(s: State, b: Branch, tx: Transaction)
    requires s.worker == Calling(Pass.Trying, tx, 0, Replied(true)) && OneBranch(tx, b) && s.held == {Key(b.id, Try)}
    ensures var t := Exec(s, PREPARED);
            && t.stored.status.Prepared? && OneBranch(t.stored, b) && t.held == s.held
            && t.worker == Looping(Committing, t.stored.(status := Succeeding), 0)
  {
    RunFour(s, Advance(0), Advance(0), Persist(0), Begin(Complete));
    var s2 := Step(Step(s, Advance(0)), Advance(0));
    assert s2.worker.Persisting? && s2.worker.tx.status.Prepared? && OneBranch(s2.worker.tx, b) && s2.held == s.held;
  }

  lemma ConfirmStarts(s: State, b: Branch)
    requires s.stored.status.Prepared? && OneBranch(s.stored, b) && s.held == {Key(b.id, Try)}
    requires s.worker == Looping(Committing, s.stored.(status := Succeeding), 0)
    ensures var t := Step(s, Advance(0));
            && CallAt(t.worker, Spawned) && OpOf(t.worker.tx.kind, t.worker.pass) == Confirm
            && t.stored == s.stored && t.held == {Key(b.id, Try), Key(b.id, Confirm)} && t.log == s.log
  {
    assert Decide(s.held, Key(b.id, Confirm)) == Execute;
  }

  lemma ConfirmRuns(s: State, b: Branch)
    requires s.stored.status.Prepared? && OneBranch(s.stored, b) && s.held == {Key(b.id, Try)}
    requires s.worker == Looping(Committing, s.stored.(status := Succeeding), 0)
    ensures var t := Exec(s, CONFIRM_AND_STOP);
            && t.stored == s.stored && t.worker.Idle? && t.held == {Key(b.id, Try), Key(b.id, Confirm)}
            && exists p :: 0 <= p < |t.log| && IsCommit(t.log[p])
  {
    ConfirmStarts(s, b);
    RunFour(s, Advance(0), Issue(0), Answer(true), Crash);
    CallCommits(Step(s, Advance(0)));
  }

  lemma CallCommits(s: State)
    requires CallAt(s.worker, Spawned) && OpOf(s.worker.tx.kind, s.worker.pass) == Confirm
    ensures var t := Step(Step(Step(s, Issue(0)), Answer(true)), Crash);
            && t.stored == s.stored && t.worker.Idle? && t.held == s.held
            && exists p :: 0 <= p < |t.log| && IsCommit(t.log[p])
  {
    var t := Step(Step(Step(s, Issue(0)), Answer(true)), Crash);
    assert IsCommit(t.log[|s.log|]);
  }

  lemma CancelStarts(s: State, b: Branch)
    requires s.stored.status.Prepared? && OneBranch(s.stored, b) && s.worker.Idle?
    requires s.held == {Key(b.id, Try), Key(b.id, Confirm)}
    ensures var t := Step(Step(s, Begin(Undo)), Advance(0));
            CallAt(t.worker, Spawned) && OpOf(t.worker.tx.kind, t.worker.pass) == Cancel && t.log == s.log
  {
    var s1 := Step(s, Begin(Undo));
    assert s1.worker == Looping(Undoing, s.stored.(status := Aborting), 0);
    assert Decide(s.held, Key(b.id, Cancel)) == Execute;
  }

  lemma CancelRuns(s: State, b: Branch)
    requires s.stored.status.Prepared? && OneBranch(s.stored, b) && s.worker.Idle?
    requires s.held == {Key(b.id, Try), Key(b.id, Confirm)}
    requires exists p :: 0 <= p < |s.log| && IsCommit(s.log[p])
    ensures Mixed(Exec(s, CANCEL).log)
  {
    CancelStarts(s, b);
    RunFour(s, Begin(Undo), Advance(0), Issue(0), Answer(true));
    CallMixes(Step(Step(s, Begin(Undo)), Advance(0)));
  }

  lemma CallMixes(s: State)
    requires CallAt(s.worker, Spawned) && OpOf(s.worker.tx.kind, s.worker.pass) == Cancel
    requires exists p :: 0 <= p < |s.log| && IsCommit(s.log[p])
    ensures Mixed(Step(Step(s, Issue(0)), Answer(true)).log)
  {
    var p :| 0 <= p < |s.log| && IsCommit(s.log[p]);
    var log := Step(Step(s, Issue(0)), Answer(true)).log;
    assert log[p] == s.log[p] && IsUndo(log[|s.log|]);
  }

  /** A one-branch TCC transaction that is confirmed and cancelled: confirm_tcc entered at Prepared
      calls the confirm, stops, and cancel_tcc finds Prepared. */
  lemma StoppedConfirmIsCancelled(s: State)
    requires Fresh(s) && |s.stored.branches| == 1 && OneBranch(s.stored, s.stored.branches[0])
    ensures Mixed(Exec(s, TRY + PREPARED + CONFIRM_AND_STOP + CANCEL).log)
  {
    var b := s.stored.branches[0];
    TryRuns(s, b);
    var s1 := Exec(s, TRY);
    PreparedRuns(s1, b, s1.worker.tx);
    var s2 := Exec(s1, PREPARED);
    ConfirmRuns(s2, b);
    CancelRuns(Exec(s2, CONFIRM_AND_STOP), b);
    ExecAppend(s, TRY, PREPARED);
    ExecAppend(s, TRY + PREPARED, CONFIRM_AND_STOP);
    ExecAppend(s, TRY + PREPARED + CONFIRM_AND_STOP, CANCEL);
  }

  // ---------------------------------------------------------------------
  // Recovery never guesses a commit

  predicate OnlyRecovery(es: seq<Event>) {
    forall k :: 0 <= k < |es| ==> !es[k].Begin?
  }

  ghost predicate Passive(s: State) {
    && !CommitStatus(s.stored.status)
    && (forall p :: 0 <= p < |s.log| ==> Harmless(s.log[p]))
    && (forall request :: request in s.scans ==> request.Prepare? || request.Undo?)
    && match s.worker
       case Idle => true
       case Persisting(tx) => !CommitStatus(tx.status)
       case Looping(pass, tx, _) => !pass.Committing? && !CommitStatus(tx.status)
       case Calling(pass, tx, _, _) => !pass.Committing? && !CommitStatus(tx.status)
  }

  /** Neither a commit call nor a stored decision to commit. */
  predicate Harmless(e: LogEvent) {
    match e
    case Stored(status) => !CommitStatus(status)
    case _ => e.op != Confirm && e.op != Commit
  }

  lemma StepPassive(s: State, e: Event)
    requires Passive(s) && !e.Begin?
    ensures Passive(Step(s, e))
  {
  }

  lemma {:induction false} PassiveRuns(s: State, es: seq<Event>)
    requires Passive(s) && OnlyRecovery(es)
    ensures Passive(Exec(s, es))
    decreases |es|
  {
    if es != [] {
      StepPassive(s, es[0]);
      PassiveRuns(Step(s, es[0]), es[1..]);
    }
  }

  /** Runs made of registrations and recovery ticks alone never store the decision to commit and
      never call a confirm or a commit, whatever times the ticks read. */
  lemma RecoveryNeverCommits(s: State, es: seq<Event>)
    requires Fresh(s) && OnlyRecovery(es)
    ensures !CommitStatus(Exec(s, es).stored.status)
    ensures forall p :: 0 <= p < |Exec(s, es).log| ==> Harmless(Exec(s, es).log[p])
  {
    PassiveRuns(s, es);
  }
}
