/** Every barrier that a run of the coordinator can leave behind is one that retention knows how to
    remove: over every run of every state machine, the barriers held are possible for the record. */
module RetentionCoverage {
  import opened Core
  import opened Edits
  import opened Layers
  import opened Retention
  import C = ConcurrentSaga
  import Q = SequentialSaga
  import M = Message
  import T = TwoPhase

  /** A copy of the record, as far as its barriers go. */
  predicate SameKeys(tx: Transaction, stored: Transaction) {
    && tx.gid == stored.gid && tx.kind == stored.kind && |tx.branches| == |stored.branches|
    && forall i :: 0 <= i < |tx.branches| ==> tx.branches[i].id == stored.branches[i].id
  }

  predicate AllPossible(tx: Transaction, held: set<Key>) {
    forall key :: key in held ==> Possible(tx, key)
  }

  lemma TakeBarrier(tx: Transaction, stored: Transaction, i: nat, op: Operation)
    requires SameKeys(tx, stored) && i < |tx.branches| && op in OpsOfKind(stored.kind)
    ensures Possible(stored, Key(tx.branches[i].id, op))
  {
  }

  lemma Replaced(held: set<Key>, stored: Transaction, tx: Transaction)
    requires AllPossible(stored, held) && SameKeys(tx, stored)
    ensures AllPossible(tx, held)
  {
  }

  // ---------------------------------------------------------------------
  // TCC and XA

  predicate TwoPhaseCopy(s: T.State, wk: T.Worker) {
    !wk.Idle? ==> SameKeys(wk.tx, s.stored) && ((wk.Looping? || wk.Calling?) && wk.pass.Trying? ==> s.stored.kind.Tcc?)
  }

  predicate TwoPhaseKeyed(s: T.State) {
    && (s.stored.kind.Tcc? || s.stored.kind.Xa?)
    && AllPossible(s.stored, s.held) && TwoPhaseCopy(s, s.worker)
  }

  lemma TwoPhaseRegister(s: T.State, b: Branch, now: nat)
    requires TwoPhaseKeyed(s)
    ensures AllPossible(T.Registered(s.stored, b, now), s.held)
  {
    var tx := T.Registered(s.stored, b, now);
    forall key | key in s.held ensures Possible(tx, key) {
      var i :| 0 <= i < |s.stored.branches| && s.stored.branches[i].id == key.branch;
      assert tx.branches[i].id == key.branch;
    }
  }

  lemma TwoPhaseLoop(s: T.State, pass: T.Pass, tx: Transaction, k: nat)
    requires TwoPhaseKeyed(s) && s.worker == T.Looping(pass, tx, k) && k < |tx.branches|
    ensures TwoPhaseKeyed(T.AdvanceLoop(s, pass, tx, k))
  {
    TakeBarrier(tx, s.stored, k, T.OpOf(tx.kind, pass));
  }

  lemma TwoPhaseFinish(s: T.State, pass: T.Pass, tx: Transaction, k: nat, ok: bool, retryAt: nat)
    requires TwoPhaseKeyed(s) && s.worker == T.Calling(pass, tx, k, Replied(ok)) && k < |tx.branches|
    ensures TwoPhaseKeyed(T.FinishCall(s, pass, tx, k, ok, retryAt))
  {
  }

  lemma TwoPhaseAdvance(s: T.State, retryAt: nat)
    requires TwoPhaseKeyed(s)
    ensures TwoPhaseKeyed(T.AdvanceStep(s, retryAt))
  {
    match s.worker
    case Looping(pass, tx, k) => if k < |tx.branches| { TwoPhaseLoop(s, pass, tx, k); }
    case Calling(pass, tx, k, Replied(ok)) => if k < |tx.branches| { TwoPhaseFinish(s, pass, tx, k, ok, retryAt); }
    case _ =>
  }

  lemma TwoPhaseStep(s: T.State, e: T.Event)
    requires TwoPhaseKeyed(s)
    ensures TwoPhaseKeyed(T.Step(s, e))
  {
    match e
    case Register(b, now) => TwoPhaseRegister(s, b, now);
    case Persist(time) => if s.worker.Persisting? { Replaced(s.held, s.stored, Bumped(s.worker.tx, time)); }
    case Advance(retryAt) => TwoPhaseAdvance(s, retryAt);
    case _ =>
  }

  lemma {:induction false} TwoPhaseRuns(s: T.State, es: seq<T.Event>)
    requires TwoPhaseKeyed(s)
    ensures TwoPhaseKeyed(T.Exec(s, es))
    decreases |es|
  {
    if es != [] {
      TwoPhaseStep(s, es[0]);
      TwoPhaseRuns(T.Step(s, es[0]), es[1..]);
    }
  }

  // ---------------------------------------------------------------------
  // Sequential Sagas

  predicate SequentialKeyed(s: Q.State) {
    && s.stored.kind.Saga? && AllPossible(s.stored, s.held)
    && (!s.worker.Idle? ==> SameKeys(s.worker.tx, s.stored))
  }

  lemma SequentialMoves(s: Q.State, s': Q.State, key: Key)
    requires SequentialKeyed(s) && s'.stored == s.stored && s'.held <= s.held + {key} && Possible(s.stored, key)
    requires !s'.worker.Idle? ==> SameKeys(s'.worker.tx, s.stored)
    ensures SequentialKeyed(s')
  {
  }

  lemma SequentialForward(s: Q.State, tx: Transaction, k: nat)
    requires SequentialKeyed(s) && s.worker == Q.AtAction(tx, k)
    ensures SequentialKeyed(Q.AdvanceAction(s, tx, k))
  {
    if k < |tx.branches| {
      TakeBarrier(tx, s.stored, k, Action);
      SequentialMoves(s, Q.AdvanceAction(s, tx, k), Q.KeyAt(tx.branches, k, Action));
    }
  }

  lemma ExhaustKeys(tx: Transaction, stored: Transaction, k: nat, retryAt: nat)
    requires SameKeys(tx, stored) && k < |tx.branches|
    ensures SameKeys(Q.Exhaust(tx, k, retryAt), stored)
  {
  }

  lemma SequentialFinish(s: Q.State, tx: Transaction, k: nat, ok: bool, retryAt: nat)
    requires SequentialKeyed(s) && s.worker == Q.ActionCall(tx, k, Replied(ok)) && k < |tx.branches|
    ensures SequentialKeyed(Q.FinishAction(s, tx, k, ok, retryAt))
  {
    TakeBarrier(tx, s.stored, k, Action);
    ExhaustKeys(tx, s.stored, k, retryAt);
    SequentialMoves(s, Q.FinishAction(s, tx, k, ok, retryAt), Q.KeyAt(tx.branches, k, Action));
  }

  lemma SequentialBackward(s: Q.State, tx: Transaction, k: nat)
    requires SequentialKeyed(s) && s.worker == Q.AtCompensation(tx, k) && 0 < k <= |tx.branches|
    ensures SequentialKeyed(Q.AdvanceCompensation(s, tx, k))
  {
    TakeBarrier(tx, s.stored, k - 1, Compensate);
    SequentialMoves(s, Q.AdvanceCompensation(s, tx, k), Q.KeyAt(tx.branches, k - 1, Compensate));
  }

  lemma SequentialUndone(s: Q.State, tx: Transaction, k: nat, ok: bool, retryAt: nat)
    requires SequentialKeyed(s) && s.worker == Q.CompensationCall(tx, k, Replied(ok)) && 0 < k <= |tx.branches|
    ensures SequentialKeyed(Q.FinishCompensation(s, tx, k, ok, retryAt))
  {
    TakeBarrier(tx, s.stored, k - 1, Compensate);
    SequentialMoves(s, Q.FinishCompensation(s, tx, k, ok, retryAt), Q.KeyAt(tx.branches, k - 1, Compensate));
  }

  lemma SequentialAdvance(s: Q.State, retryAt: nat)
    requires SequentialKeyed(s)
    ensures SequentialKeyed(Q.AdvanceStep(s, retryAt))
  {
    match s.worker
    case AtAction(tx, k) => SequentialForward(s, tx, k);
    case ActionCall(tx, k, Replied(ok)) => if k < |tx.branches| { SequentialFinish(s, tx, k, ok, retryAt); }
    case AtCompensation(tx, k) => if 0 < k <= |tx.branches| { SequentialBackward(s, tx, k); }
    case CompensationCall(tx, k, Replied(ok)) => if 0 < k <= |tx.branches| { SequentialUndone(s, tx, k, ok, retryAt); }
    case _ =>
  }

  lemma SequentialStep(s: Q.State, e: Q.Event)
    requires SequentialKeyed(s)
    ensures SequentialKeyed(Q.Step(s, e))
  {
    var wk := s.worker;
    match e
    case Persist(time) => if wk.Persisting? { Replaced(s.held, s.stored, Bumped(wk.tx, time)); }
    case Advance(retryAt) => SequentialAdvance(s, retryAt);
    case _ =>
  }

  lemma {:induction false} SequentialRuns(s: Q.State, es: seq<Q.Event>)
    requires SequentialKeyed(s)
    ensures SequentialKeyed(Q.Exec(s, es))
    decreases |es|
  {
    if es != [] {
      SequentialStep(s, es[0]);
      SequentialRuns(Q.Step(s, es[0]), es[1..]);
    }
  }

  // ---------------------------------------------------------------------
  // Messages

  predicate MessageCopy(stored: Transaction, wk: M.Worker) {
    !wk.Idle? && !wk.Chosen? ==> SameKeys(wk.tx, stored)
  }

  ghost predicate MessageKeyed(s: M.State) {
    && s.stored.kind.Message? && AllPossible(s.stored, s.held)
    && forall w :: w in s.workers ==> MessageCopy(s.stored, s.workers[w])
  }

  lemma MessageAccept(s: M.State, w: nat, time: nat)
    requires MessageKeyed(s)
    ensures MessageKeyed(M.PersistStep(s, w, time))
  {
  }

  lemma MessageAdvance(s: M.State, w: nat)
    requires MessageKeyed(s)
    ensures MessageKeyed(M.AdvanceStep(s, w))
  {
  }

  lemma MessageJoin(s: M.State, w: nat, i: nat, retryAt: nat)
    requires MessageKeyed(s)
    ensures MessageKeyed(M.JoinStep(s, w, i, retryAt))
  {
  }

  lemma MessageAnswer(s: M.State, w: nat, i: nat, ok: bool)
    requires MessageKeyed(s)
    ensures MessageKeyed(M.AnswerStep(s, w, i, ok))
  {
  }

  lemma MessageBegin(s: M.State, w: nat, request: M.Request)
    requires MessageKeyed(s)
    ensures MessageKeyed(M.Goto(s, w, M.BeginRequest(s.stored, request)))
  {
  }

  lemma MessageStep(s: M.State, e: M.Event)
    requires MessageKeyed(s)
    ensures MessageKeyed(M.Step(s, e))
  {
    match e
    case Begin(w, request) => MessageBegin(s, w, request);
    case Load(w) => if M.WorkerAt(s, w).Chosen? { MessageBegin(s, w, M.WorkerAt(s, w).request); }
    case Persist(w, time) => MessageAccept(s, w, time);
    case Advance(w) => MessageAdvance(s, w);
    case Answer(w, i, ok) => MessageAnswer(s, w, i, ok);
    case Join(w, i, retryAt) => MessageJoin(s, w, i, retryAt);
    case _ =>
  }

  lemma {:induction false} MessageRuns(s: M.State, es: seq<M.Event>)
    requires MessageKeyed(s)
    ensures MessageKeyed(M.Exec(s, es))
    decreases |es|
  {
    if es != [] {
      MessageStep(s, es[0]);
      MessageRuns(M.Step(s, es[0]), es[1..]);
    }
  }

  // ---------------------------------------------------------------------
  // Concurrent Sagas

  predicate ConcurrentCopy(stored: Transaction, wk: C.Worker) {
    && (!wk.Idle? ==> SameKeys(wk.tx, stored))
    && (wk.Claiming? ==> wk.op == Action || wk.op == Compensate)
    && (wk.AtLoop? ==> wk.op == Action || wk.op == Compensate)
    && (wk.Persisting? ==> wk.op == Action || wk.op == Compensate)
    && (wk.Calling? ==> wk.op == Action || wk.op == Compensate)
  }

  ghost predicate ConcurrentKeyed(s: C.State) {
    && s.stored.kind.Saga? && AllPossible(s.stored, s.held)
    && forall w :: w in s.workers ==> ConcurrentCopy(s.stored, s.workers[w])
  }

  lemma ConcurrentAccept(s: C.State, w: nat, time: nat)
    requires ConcurrentKeyed(s)
    ensures ConcurrentKeyed(C.PersistStep(s, w, time))
  {
    var wk := C.WorkerAt(s, w);
    if wk.Persisting? || wk.Administering? { Replaced(s.held, s.stored, Bumped(wk.tx, time)); }
  }

  lemma ConcurrentClaim(s: C.State, w: nat)
    requires ConcurrentKeyed(s)
    ensures ConcurrentKeyed(C.ClaimStep(s, w))
  {
  }

  lemma ConcurrentJoin(s: C.State, w: nat, i: nat, retryAt: nat)
    requires ConcurrentKeyed(s)
    ensures ConcurrentKeyed(C.JoinStep(s, w, i, retryAt))
  {
  }

  lemma ConcurrentBegin(s: C.State, w: nat, request: C.Request)
    requires ConcurrentKeyed(s)
    ensures ConcurrentKeyed(C.Goto(s, w, C.BeginRequest(s.stored, request)))
  {
  }

  lemma ConcurrentEndLayer(s: C.State, w: nat)
    requires ConcurrentKeyed(s)
    ensures ConcurrentKeyed(C.EndLayerStep(s, w))
  {
  }

  lemma ConcurrentStep(s: C.State, e: C.Event)
    requires ConcurrentKeyed(s)
    ensures ConcurrentKeyed(C.Step(s, e))
  {
    match e
    case Persist(w, time) => ConcurrentAccept(s, w, time);
    case Claim(w) => ConcurrentClaim(s, w);
    case Join(w, i, retryAt) => ConcurrentJoin(s, w, i, retryAt);
    case Begin(w, request) => if C.WorkerAt(s, w).Idle? { ConcurrentBegin(s, w, request); }
    case EndLayer(w) => ConcurrentEndLayer(s, w);
    case _ =>
  }

  lemma {:induction false} ConcurrentRuns(s: C.State, es: seq<C.Event>)
    requires ConcurrentKeyed(s)
    ensures ConcurrentKeyed(C.Exec(s, es))
    decreases |es|
  {
    if es != [] {
      ConcurrentStep(s, es[0]);
      ConcurrentRuns(C.Step(s, es[0]), es[1..]);
    }
  }

  // ---------------------------------------------------------------------
  // Purging after a run

  /** The store shows the run: its record, and no barrier of its gid that the run does not hold. What
      the index still knows of them is left open. */
  predicate Shows(sh: Shared, tx: Transaction, held: set<Key>) {
    Unchanged(sh, tx) && forall entry :: entry in sh.barriers && entry.0 == tx.gid ==> entry.1 in held
  }

  predicate Clean(sh: Shared, gid: string) {
    gid !in sh.records && forall entry :: entry in sh.barriers ==> entry.0 != gid
  }

  lemma PurgeClears(sh: Shared, tx: Transaction, held: set<Key>)
    requires Shows(sh, tx, held) && AllPossible(tx, held) && Covered(tx)
    ensures Clean(Deleted(sh, tx), tx.gid)
  {
  }

  /** After any run of a TCC or XA transaction with well-kinded branches, a purge leaves nothing. */
  lemma TwoPhasePurge(s: T.State, es: seq<T.Event>, sh: Shared)
    requires T.Fresh(s) && Shows(sh, T.Exec(s, es).stored, T.Exec(s, es).held) && Covered(T.Exec(s, es).stored)
    ensures Clean(Deleted(sh, T.Exec(s, es).stored), T.Exec(s, es).stored.gid)
  {
    TwoPhaseRuns(s, es);
    PurgeClears(sh, T.Exec(s, es).stored, T.Exec(s, es).held);
  }

  lemma SequentialSagaPurge(s: Q.State, es: seq<Q.Event>, sh: Shared)
    requires Q.Fresh(s) && s.stored.kind.Saga?
    requires Shows(sh, Q.Exec(s, es).stored, Q.Exec(s, es).held) && Covered(Q.Exec(s, es).stored)
    ensures Clean(Deleted(sh, Q.Exec(s, es).stored), Q.Exec(s, es).stored.gid)
  {
    SequentialRuns(s, es);
    PurgeClears(sh, Q.Exec(s, es).stored, Q.Exec(s, es).held);
  }

  lemma MessagePurge(s: M.State, es: seq<M.Event>, sh: Shared)
    requires M.Fresh(s) && s.stored.kind.Message?
    requires Shows(sh, M.Exec(s, es).stored, M.Exec(s, es).held) && Covered(M.Exec(s, es).stored)
    ensures Clean(Deleted(sh, M.Exec(s, es).stored), M.Exec(s, es).stored.gid)
  {
    MessageRuns(s, es);
    PurgeClears(sh, M.Exec(s, es).stored, M.Exec(s, es).held);
  }

  lemma ConcurrentSagaPurge(s: C.State, es: seq<C.Event>, sh: Shared)
    requires C.Submitted(s) && s.stored.kind.Saga?
    requires Shows(sh, C.Exec(s, es).stored, C.Exec(s, es).held) && Covered(C.Exec(s, es).stored)
    ensures Clean(Deleted(sh, C.Exec(s, es).stored), C.Exec(s, es).stored.gid)
  {
    ConcurrentRuns(s, es);
    PurgeClears(sh, C.Exec(s, es).stored, C.Exec(s, es).held);
  }
}
