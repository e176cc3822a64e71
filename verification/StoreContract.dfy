/** The writes that the coordinator's machines submit are the edits that the revision-checked store is
    proved for: whatever the interleaving, a write that the store accepts starts from a non-terminal
    record and keeps its identity and branches. */
module StoreContract {
  import opened Core
  import opened RedisStore
  import opened RetentionCoverage
  import C = ConcurrentSaga
  import CS = ConcurrentSagaSafety
  import M = Message
  import MS = MessageSafety
  import Q = SequentialSaga
  import QS = SequentialSagaSafety
  import T = TwoPhase
  import TS = TwoPhaseSafety

  lemma SameKeysSameIds(tx: Transaction, stored: Transaction)
    requires SameKeys(tx, stored)
    ensures Ids(tx.branches) == Ids(stored.branches)
  {
    forall i | 0 <= i < |tx.branches| ensures Ids(tx.branches)[i] == Ids(stored.branches)[i] {
      assert tx.branches[i].id == stored.branches[i].id;
    }
  }

  /** What a worker of the concurrent Saga is about to write. */
  predicate SagaWrites(wk: C.Worker, tx: Transaction) {
    (wk.Persisting? || wk.Administering?) && wk.tx == tx
  }

  lemma SagaWritesAreEdits(s: C.State, es: seq<C.Event>, w: nat, tx: Transaction)
    requires C.Submitted(s) && s.stored.kind.Saga? && C.Exec(s, es).stored.revision < MAX_U64
    requires SagaWrites(C.WorkerAt(C.Exec(s, es), w), tx) && tx.revision == C.Exec(s, es).stored.revision
    ensures CoordinatorEdit(C.Exec(s, es).stored, tx)
  {
    var end := C.Exec(s, es);
    CS.RunInv(s, es);
    ConcurrentRuns(s, es);
    assert CS.WorkerOk(end, end.workers[w]) && ConcurrentCopy(end.stored, end.workers[w]);
    SameKeysSameIds(tx, end.stored);
  }

  lemma MessageWritesAreEdits(s: M.State, es: seq<M.Event>, w: nat, tx: Transaction)
    requires M.Fresh(s) && s.stored.kind.Message? && M.Exec(s, es).stored.revision < MAX_U64
    requires M.WorkerAt(M.Exec(s, es), w).Persisting? && M.WorkerAt(M.Exec(s, es), w).tx == tx
    requires tx.revision == M.Exec(s, es).stored.revision
    ensures CoordinatorEdit(M.Exec(s, es).stored, tx)
  {
    var end := M.Exec(s, es);
    MS.RunInv(s, es);
    MessageRuns(s, es);
    assert MS.WorkerOk(end, end.workers[w]) && MessageCopy(end.stored, end.workers[w]);
    SameKeysSameIds(tx, end.stored);
  }

  // ---------------------------------------------------------------------
  // One pass at a time: the copy has the stored revision

  predicate TwoPhaseCurrent(s: T.State) {
    !s.worker.Idle? ==> s.worker.tx.revision == s.stored.revision
  }

  lemma TwoPhaseAdvanceCurrent(s: T.State, retryAt: nat)
    requires TwoPhaseCurrent(s)
    ensures TwoPhaseCurrent(T.AdvanceStep(s, retryAt))
  {
  }

  lemma {:induction false} TwoPhaseStaysCurrent(s: T.State, es: seq<T.Event>)
    requires TwoPhaseCurrent(s)
    ensures TwoPhaseCurrent(T.Exec(s, es))
    decreases |es|
  {
    if es != [] {
      if es[0].Advance? { TwoPhaseAdvanceCurrent(s, es[0].retryAt); }
      TwoPhaseStaysCurrent(T.Step(s, es[0]), es[1..]);
    }
  }

  lemma TwoPhaseWritesAreEdits(s: T.State, es: seq<T.Event>)
    requires T.Fresh(s) && T.Exec(s, es).worker.Persisting?
    ensures CoordinatorEdit(T.Exec(s, es).stored, T.Exec(s, es).worker.tx)
  {
    TS.FreshInv(s);
    TS.ExecKeeps(s, es);
    TwoPhaseRuns(s, es);
    TwoPhaseStaysCurrent(s, es);
    SameKeysSameIds(T.Exec(s, es).worker.tx, T.Exec(s, es).stored);
  }

  predicate SequentialCurrent(s: Q.State) {
    !s.worker.Idle? ==> s.worker.tx.revision == s.stored.revision
  }

  lemma SequentialAdvanceCurrent(s: Q.State, retryAt: nat)
    requires SequentialCurrent(s)
    ensures SequentialCurrent(Q.AdvanceStep(s, retryAt))
  {
  }

  lemma {:induction false} SequentialStaysCurrent(s: Q.State, es: seq<Q.Event>)
    requires SequentialCurrent(s)
    ensures SequentialCurrent(Q.Exec(s, es))
    decreases |es|
  {
    if es != [] {
      if es[0].Advance? { SequentialAdvanceCurrent(s, es[0].retryAt); }
      SequentialStaysCurrent(Q.Step(s, es[0]), es[1..]);
    }
  }

  lemma SequentialSagaWritesAreEdits(s: Q.State, es: seq<Q.Event>)
    requires Q.Fresh(s) && s.stored.kind.Saga? && Q.Exec(s, es).worker.Persisting?
    ensures CoordinatorEdit(Q.Exec(s, es).stored, Q.Exec(s, es).worker.tx)
  {
    QS.ExecKeeps(s, es);
    SequentialRuns(s, es);
    SequentialStaysCurrent(s, es);
    SameKeysSameIds(Q.Exec(s, es).worker.tx, Q.Exec(s, es).stored);
  }
}
