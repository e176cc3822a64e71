/** At most once for passes that overlap. Sequential Saga, TCC and XA passes of any number of workers
    interleave freely over one barrier table and a record that is overwritten blindly. Whatever the
    record says, a barrier has one holder, and no call is made for it after one succeeded. */
module OverlappingPasses {
  import opened Core
  import Q = SequentialSaga
  import T = TwoPhase

  // ---------------------------------------------------------------------
  // The discipline

  /** The barrier table, the log, and who holds which barrier for a call not yet answered with success. */
  datatype Table = Table(held: set<Key>, log: seq<LogEvent>, holders: map<nat, Key>)

  predicate Once(e: LogEvent, before: seq<LogEvent>) {
    !e.Stored? ==> !OkFor(before, Key(e.id, e.op))
  }

  ghost predicate Exclusive(t: Table) {
    && (forall v :: v in t.holders ==> t.holders[v] in t.held && !OkFor(t.log, t.holders[v]))
    && (forall v, w :: v in t.holders && w in t.holders && t.holders[v] == t.holders[w] ==> v == w)
    && (forall key :: OkFor(t.log, key) ==> key in t.held)
    && forall p :: 0 <= p < |t.log| ==> Once(t.log[p], t.log[..p])
  }

  /** What a worker may do in one step. */
  datatype Move =
    | Pause                             // nothing
    | Forget                            // give up its barrier without releasing it
    | Note(status: TransactionStatus)   // store
    | Take(key: Key, keeps: bool)       // claim a free barrier, to call or not
    | Call(at: nat, index: nat)
    | Answer(index: nat, ok: bool)
    | Release

  /** The table, the log, and what the worker holds after the move. */
  function Effect(held: set<Key>, log: seq<LogEvent>, own: Option<Key>, m: Move): (set<Key>, seq<LogEvent>, Option<Key>) {
    match m
    case Pause => (held, log, own)
    case Forget => (held, log, None)
    case Note(status) => (held, log + [Stored(status)], None)
    case Take(key, keeps) =>
      if key in held then (held, log, own) else (held + {key}, log, if keeps then Some(key) else None)
    case Call(at, index) =>
      if own.None? then (held, log, own)
      else (held, log + [Issued(own.value.op, index, own.value.branch, at)], own)
    case Answer(index, ok) =>
      if own.None? then (held, log, own)
      else (held, log + [Answered(own.value.op, index, own.value.branch, ok)], if ok then None else own)
    case Release => if own.None? then (held, log, own) else (held - {own.value}, log, None)
  }

  function HeldBy(t: Table, v: nat): Option<Key> {
    if v in t.holders then Some(t.holders[v]) else None
  }

  function Apply(t: Table, v: nat, m: Move): Table {
    var (held, log, own) := Effect(t.held, t.log, HeldBy(t, v), m);
    Table(held, log, if own.Some? then t.holders[v := own.value] else t.holders - {v})
  }

  lemma OnceAppend(t: Table, e: LogEvent)
    requires Exclusive(t) && Once(e, t.log)
    ensures forall p :: 0 <= p < |t.log + [e]| ==> Once((t.log + [e])[p], (t.log + [e])[..p])
  {
    var more := t.log + [e];
    forall p | 0 <= p < |more| ensures Once(more[p], more[..p]) {
      if p < |t.log| { assert more[..p] == t.log[..p]; } else { assert more[..p] == t.log; }
    }
  }

  lemma MoveKeeps(t: Table, v: nat, m: Move)
    requires Exclusive(t)
    ensures Exclusive(Apply(t, v, m))
  {
    match m
    case Note(status) => OkForAppend(t.log, Stored(status)); OnceAppend(t, Stored(status));
    case Call(at, index) =>
      if v in t.holders {
        var e := Issued(t.holders[v].op, index, t.holders[v].branch, at);
        OkForAppend(t.log, e);
        OnceAppend(t, e);
      }
    case Answer(index, ok) =>
      if v in t.holders {
        var e := Answered(t.holders[v].op, index, t.holders[v].branch, ok);
        OkForAppend(t.log, e);
        OnceAppend(t, e);
      }
    case _ =>
  }

  // ---------------------------------------------------------------------
  // TCC and XA

  datatype TwoPhases = TwoPhases(shared: T.State, workers: map<nat, T.Worker>)

  function TwoPhaseWorker(s: TwoPhases, v: nat): T.Worker {
    if v in s.workers then s.workers[v] else T.Idle
  }

  /** One step of worker v, on the shared table and record. */
  function TwoPhaseStep(s: TwoPhases, v: nat, e: T.Event): TwoPhases {
    var t := T.Step(s.shared.(worker := TwoPhaseWorker(s, v)), e);
    TwoPhases(t, s.workers[v := t.worker])
  }

  function TwoPhaseExec(s: TwoPhases, es: seq<(nat, T.Event)>): TwoPhases
    decreases |es|
  {
    if es == [] then s else TwoPhaseExec(TwoPhaseStep(s, es[0].0, es[0].1), es[1..])
  }

  function TwoPhaseHolds(wk: T.Worker): Option<Key> {
    if wk.Calling? && wk.k < |wk.tx.branches| && wk.call != Replied(true) then Some(T.CurrentKey(wk)) else None
  }

  function TwoPhaseTable(s: TwoPhases): Table {
    Table(s.shared.held, s.shared.log,
          TwoPhaseHolders(s.workers))
  }

  function TwoPhaseHolders(workers: map<nat, T.Worker>): map<nat, Key> {
    map v | v in workers && TwoPhaseHolds(workers[v]).Some? :: TwoPhaseHolds(workers[v]).value
  }

  lemma TwoPhaseHoldersAfter(workers: map<nat, T.Worker>, v: nat, wk: T.Worker, own: Option<Key>)
    requires own == TwoPhaseHolds(wk)
    ensures TwoPhaseHolders(workers[v := wk]) ==
            if own.Some? then TwoPhaseHolders(workers)[v := own.value] else TwoPhaseHolders(workers) - {v}
  {
  }

  /** The move that a step makes. */
  function TwoPhaseMove(s: T.State, e: T.Event): Move {
    var wk := s.worker;
    match e
    case Persist(_) => if wk.Persisting? then Note(wk.tx.status) else Pause
    case Advance(_) =>
      if wk.Looping? && wk.k < |wk.tx.branches| then TwoPhaseClaim(s.held, wk)
      else if T.CallAt(wk, Replied(false)) then Release
      else Pause
    case Issue(at) => if T.CallAt(wk, Spawned) then Call(at, wk.k) else Pause
    case Answer(ok) => if T.CallAt(wk, Open) then Answer(wk.k, ok) else Pause
    case Crash => Forget
    case _ => Pause
  }

  function TwoPhaseClaim(held: set<Key>, wk: T.Worker): Move
    requires wk.Looping? && wk.k < |wk.tx.branches|
  {
    var b, key := wk.tx.branches[wk.k], T.KeyAt(wk.pass, wk.tx, wk.k);
    var decision := Decide(held, key);
    if wk.pass.Trying? && b.status.Succeeded? then Pause
    else if T.Calls(b, decision) then Take(key, T.CallUrl(wk.tx.kind, wk.pass, b).Some?)
    else if decision == SkipNullCompensation then Take(key, false)
    else Pause
  }

  lemma TwoPhaseLoops(s: T.State, pass: T.Pass, tx: Transaction, k: nat)
    requires s.worker == T.Looping(pass, tx, k) && k < |tx.branches|
    ensures var t := T.AdvanceLoop(s, pass, tx, k);
            Effect(s.held, s.log, None, TwoPhaseClaim(s.held, s.worker)) == (t.held, t.log, TwoPhaseHolds(t.worker))
  {
  }

  lemma TwoPhaseEffect(s: T.State, e: T.Event)
    ensures var t := T.Step(s, e);
            Effect(s.held, s.log, TwoPhaseHolds(s.worker), TwoPhaseMove(s, e)) == (t.held, t.log, TwoPhaseHolds(t.worker))
  {
    if e.Advance? && s.worker.Looping? && s.worker.k < |s.worker.tx.branches| {
      TwoPhaseLoops(s, s.worker.pass, s.worker.tx, s.worker.k);
    }
  }

  lemma TwoPhaseMoves(s: TwoPhases, v: nat, e: T.Event)
    ensures TwoPhaseTable(TwoPhaseStep(s, v, e)) ==
            Apply(TwoPhaseTable(s), v, TwoPhaseMove(s.shared.(worker := TwoPhaseWorker(s, v)), e))
  {
    var q := s.shared.(worker := TwoPhaseWorker(s, v));
    var t := T.Step(q, e);
    assert HeldBy(TwoPhaseTable(s), v) == TwoPhaseHolds(q.worker);
    TwoPhaseEffect(q, e);
    TwoPhaseHoldersAfter(s.workers, v, t.worker, TwoPhaseHolds(t.worker));
  }

  lemma {:induction false} TwoPhaseExclusive(s: TwoPhases, es: seq<(nat, T.Event)>)
    requires Exclusive(TwoPhaseTable(s))
    ensures Exclusive(TwoPhaseTable(TwoPhaseExec(s, es)))
    decreases |es|
  {
    if es != [] {
      var (v, e) := es[0];
      TwoPhaseMoves(s, v, e);
      MoveKeeps(TwoPhaseTable(s), v, TwoPhaseMove(s.shared.(worker := TwoPhaseWorker(s, v)), e));
      TwoPhaseExclusive(TwoPhaseStep(s, v, e), es[1..]);
    }
  }

  /** After a success, no call for the same barrier. */
  predicate NotAgain(success: LogEvent, later: LogEvent) {
    success.Answered? && success.ok && !later.Stored? ==> Key(later.id, later.op) != Key(success.id, success.op)
  }

  predicate NeverAgain(log: seq<LogEvent>) {
    forall p, q :: 0 <= p < q < |log| ==> NotAgain(log[p], log[q])
  }

  lemma ExclusiveIsOnce(t: Table)
    requires Exclusive(t)
    ensures NeverAgain(t.log)
  {
    forall p, q | 0 <= p < q < |t.log| ensures NotAgain(t.log[p], t.log[q]) {
      assert Once(t.log[q], t.log[..q]);
      if t.log[p].Answered? && t.log[p].ok { assert SuccessOf(t.log[..q][p], Key(t.log[p].id, t.log[p].op)); }
    }
  }

  /** TCC and XA passes that overlap in any way, with stops: each barrier has at most one holder at a
      time, and no call is made for it after one succeeded. */
  lemma TwoPhaseAtMostOnce(s: T.State, es: seq<(nat, T.Event)>)
    requires T.Fresh(s)
    ensures var t := TwoPhaseTable(TwoPhaseExec(TwoPhases(s, map[]), es));
            NeverAgain(t.log) && forall v, w :: v in t.holders && w in t.holders && t.holders[v] == t.holders[w] ==> v == w
  {
    TwoPhaseExclusive(TwoPhases(s, map[]), es);
    ExclusiveIsOnce(TwoPhaseTable(TwoPhaseExec(TwoPhases(s, map[]), es)));
  }

  // ---------------------------------------------------------------------
  // Sequential Sagas

  datatype Sagas = Sagas(shared: Q.State, workers: map<nat, Q.Worker>)

  function SagaWorker(s: Sagas, v: nat): Q.Worker {
    if v in s.workers then s.workers[v] else Q.Idle
  }

  function SagaStep(s: Sagas, v: nat, e: Q.Event): Sagas {
    var t := Q.Step(s.shared.(worker := SagaWorker(s, v)), e);
    Sagas(t, s.workers[v := t.worker])
  }

  function SagaExec(s: Sagas, es: seq<(nat, Q.Event)>): Sagas
    decreases |es|
  {
    if es == [] then s else SagaExec(SagaStep(s, es[0].0, es[0].1), es[1..])
  }

  function SagaHolds(wk: Q.Worker): Option<Key> {
    if Q.Target(wk).Some? && wk.call != Replied(true)
    then Some(Q.KeyAt(wk.tx.branches, Q.Target(wk).value.1, Q.Target(wk).value.0)) else None
  }

  function SagaTable(s: Sagas): Table {
    Table(s.shared.held, s.shared.log,
          SagaHolders(s.workers))
  }

  function SagaHolders(workers: map<nat, Q.Worker>): map<nat, Key> {
    map v | v in workers && SagaHolds(workers[v]).Some? :: SagaHolds(workers[v]).value
  }

  lemma SagaHoldersAfter(workers: map<nat, Q.Worker>, v: nat, wk: Q.Worker, own: Option<Key>)
    requires own == SagaHolds(wk)
    ensures SagaHolders(workers[v := wk]) ==
            if own.Some? then SagaHolders(workers)[v := own.value] else SagaHolders(workers) - {v}
  {
  }

  function SagaMove(s: Q.State, e: Q.Event): Move {
    var wk := s.worker;
    match e
    case Persist(_) => if wk.Persisting? then Note(wk.tx.status) else Pause
    case Advance(_) => SagaAdvance(s.held, wk)
    case Issue(at) => if Q.Target(wk).Some? && wk.call == Spawned then Call(at, Q.Target(wk).value.1) else Pause
    case Answer(ok) => if Q.Target(wk).Some? && wk.call == Open then Answer(Q.Target(wk).value.1, ok) else Pause
    case Crash => Forget
    case _ => Pause
  }

  function SagaAdvance(held: set<Key>, wk: Q.Worker): Move {
    match wk
    case AtAction(tx, k) =>
      if k < |tx.branches| && !tx.branches[k].status.Succeeded? then Take(Q.KeyAt(tx.branches, k, Action), true) else Pause
    case ActionCall(tx, k, Replied(ok)) =>
      if k >= |tx.branches| || ok then Pause
      else if tx.branches[k].attempts < Q.MaxAttempts(tx.options) then Release else Forget
    case AtCompensation(tx, k) =>
      if 0 < k <= |tx.branches| && Q.Owed(tx.branches[k - 1])
      then Take(Q.KeyAt(tx.branches, k - 1, Compensate), tx.branches[k - 1].compensate.Some?) else Pause
    case CompensationCall(tx, k, Replied(ok)) => if 0 < k <= |tx.branches| && !ok then Release else Pause
    case _ => Pause
  }

  lemma SagaCompensates(s: Q.State, retryAt: nat)
    requires s.worker.AtCompensation? || s.worker.CompensationCall?
    ensures var t := Q.AdvanceStep(s, retryAt);
            Effect(s.held, s.log, SagaHolds(s.worker), SagaAdvance(s.held, s.worker)) == (t.held, t.log, SagaHolds(t.worker))
  {
  }

  lemma SagaAdvances(s: Q.State, retryAt: nat)
    ensures var t := Q.AdvanceStep(s, retryAt);
            Effect(s.held, s.log, SagaHolds(s.worker), SagaAdvance(s.held, s.worker)) == (t.held, t.log, SagaHolds(t.worker))
  {
    if s.worker.AtCompensation? || s.worker.CompensationCall? { SagaCompensates(s, retryAt); }
  }

  lemma SagaEffect(s: Q.State, e: Q.Event)
    ensures var t := Q.Step(s, e);
            Effect(s.held, s.log, SagaHolds(s.worker), SagaMove(s, e)) == (t.held, t.log, SagaHolds(t.worker))
  {
    if e.Advance? { SagaAdvances(s, e.retryAt); }
  }

  lemma SagaMoves(s: Sagas, v: nat, e: Q.Event)
    ensures SagaTable(SagaStep(s, v, e)) ==
            Apply(SagaTable(s), v, SagaMove(s.shared.(worker := SagaWorker(s, v)), e))
  {
    var q := s.shared.(worker := SagaWorker(s, v));
    var t := Q.Step(q, e);
    assert HeldBy(SagaTable(s), v) == SagaHolds(q.worker);
    SagaEffect(q, e);
    SagaHoldersAfter(s.workers, v, t.worker, SagaHolds(t.worker));
  }

  lemma {:induction false} SagaExclusive(s: Sagas, es: seq<(nat, Q.Event)>)
    requires Exclusive(SagaTable(s))
    ensures Exclusive(SagaTable(SagaExec(s, es)))
    decreases |es|
  {
    if es != [] {
      var (v, e) := es[0];
      SagaMoves(s, v, e);
      MoveKeeps(SagaTable(s), v, SagaMove(s.shared.(worker := SagaWorker(s, v)), e));
      SagaExclusive(SagaStep(s, v, e), es[1..]);
    }
  }

  /** The same for sequential Saga passes. */
  lemma SagaAtMostOnce(s: Q.State, es: seq<(nat, Q.Event)>)
    requires Q.Fresh(s)
    ensures var t := SagaTable(SagaExec(Sagas(s, map[]), es));
            NeverAgain(t.log) && forall v, w :: v in t.holders && w in t.holders && t.holders[v] == t.holders[w] ==> v == w
  {
    SagaExclusive(Sagas(s, map[]), es);
    ExclusiveIsOnce(SagaTable(SagaExec(Sagas(s, map[]), es)));
  }
}
