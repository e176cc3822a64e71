/** What one undisturbed pass of a concurrent Saga leaves: a start pass whose calls succeed stores
    Succeeded, and an abort pass whose calls succeed stores Aborted, exactly when every branch on the
    way can be called. */
module ConcurrentSagaPasses {
  import opened Core
  import opened Edits
  import opened DependencyGraph
  import opened Layers
  import opened ConcurrentSaga

  /** The steps of one pass of worker w, without a stop. */
  predicate Quiet(es: seq<Event>, w: nat) {
    forall k :: 0 <= k < |es| ==> QuietEvent(es[k], w)
  }

  predicate QuietEvent(e: Event, w: nat) { !e.Begin? && !e.Crash? && e.worker == w }

  /** No call was answered with failure from this point of the log on. */
  predicate NoFailure(log: seq<LogEvent>, from: nat) {
    forall p :: from <= p < |log| && log[p].Answered? ==> log[p].ok
  }

  lemma {:induction false} LogGrows(s: State, es: seq<Event>)
    ensures s.log <= Exec(s, es).log
    decreases |es|
  {
    if es != [] { LogGrows(Step(s, es[0]), es[1..]); }
  }

  lemma NoFailureBefore(log: seq<LogEvent>, more: seq<LogEvent>, from: nat)
    requires log <= more && NoFailure(more, from)
    ensures NoFailure(log, from)
  {
    assert forall p :: 0 <= p < |log| ==> log[p] == more[p];
  }

  // ---------------------------------------------------------------------
  // What a pass has to do

  /** Branches that a pass still has to deal with, and those among them that it may call. */
  predicate Due(op: Operation, b: Branch) { if op == Action then !b.status.Succeeded? else b.status.Compensating? }

  predicate Waiting(op: Operation, b: Branch) {
    if op == Action then b.status.Pending? || b.status.Failed? else b.status.Compensating?
  }

  function Going(op: Operation): TransactionStatus { if op == Action then Succeeding else Aborting }
  function Finished(op: Operation): TransactionStatus {
    if op == Action then TransactionStatus.Succeeded else Aborted
  }

  /** Every due branch outside the layer can be called. */
  predicate Clear(op: Operation, tx: Transaction, held: set<Key>, layer: set<nat>) {
    forall i: nat :: i < |tx.branches| && i !in layer && Due(op, tx.branches[i]) ==>
      Waiting(op, tx.branches[i]) && KeyOf(tx, i, op) !in held
  }

  function Ready(op: Operation, bs: seq<Branch>): (r: seq<nat>)
    ensures forall i :: i in r ==> i < |bs| && Due(op, bs[i]) && Waiting(op, bs[i])
    ensures forall a, b :: 0 <= a < b < |r| ==> r[a] < r[b]
  {
    if op == Action then ReadyActions(bs) else ReadyCompensations(bs)
  }

  /** The local copy is the stored record's next version. */
  ghost predicate Current(s: State, op: Operation, tx: Transaction) {
    && (op == Action || op == Compensate) && WellFormed(tx.branches)
    && tx.revision == s.stored.revision && tx.status == Going(op)
  }

  predicate InLayer(tx: Transaction, layer: seq<nat>) {
    && (forall a :: 0 <= a < |layer| ==> layer[a] < |tx.branches|)
    && forall a, b :: 0 <= a < b < |layer| ==> layer[a] < layer[b]
  }

  // ---------------------------------------------------------------------
  // A pass with nothing in its way

  ghost predicate Fits(s: State, w: nat, op: Operation) {
    match WorkerAt(s, w)
    case Idle => s.stored.status == Finished(op)
    case Persisting(o, tx, Return) => o == op && tx.status == Finished(op) && tx.revision == s.stored.revision
    case Persisting(o, tx, Loop) => o == op && Current(s, op, tx) && Clear(op, tx, s.held, {})
    case Persisting(o, tx, Invoke(layer)) =>
      o == op && Current(s, op, tx) && InLayer(tx, layer) && Clear(op, tx, s.held, set i | i in layer)
    case AtLoop(o, tx) => o == op && Current(s, op, tx) && Clear(op, tx, s.held, {})
    case Claiming(o, tx, layer, k) =>
      && o == op && Current(s, op, tx) && InLayer(tx, layer) && k <= |layer|
      && (forall i :: i in layer ==> Due(op, tx.branches[i]))
      && Clear(op, tx, s.held, set i | i in layer[..k])
    case Calling(o, tx, calls, retryable, exhausted) =>
      && o == op && Current(s, op, tx) && !retryable && !exhausted
      && (forall i :: i in calls ==> i < |tx.branches| && calls[i] != Replied(false))
      && Clear(op, tx, s.held, calls.Keys)
    case _ => false
  }

  lemma DoneWhenNoneReady(op: Operation, tx: Transaction, held: set<Key>)
    requires WellFormed(tx.branches) && Clear(op, tx, held, {}) && (op == Action || op == Compensate)
    ensures Ready(op, tx.branches) == [] <==> if op == Action then AllSucceeded(tx.branches) else NoneCompensating(tx.branches)
  {
    var bs := tx.branches;
    if op == Action {
      forall i | 0 <= i < |bs| ensures bs[i].status.Pending? || bs[i].status.Failed? || bs[i].status.Succeeded? {
        if Due(op, bs[i]) { assert Waiting(op, bs[i]); }
      }
      ActionLayerEmptyOnlyWhenDone(bs);
    } else {
      CompensationLayerEmptyOnlyWhenDone(bs);
    }
  }

  lemma AdvanceFits(s: State, w: nat, op: Operation)
    requires Fits(s, w, op) && WorkerAt(s, w).AtLoop?
    ensures Fits(Step(s, Advance(w)), w, op)
  {
    var tx := WorkerAt(s, w).tx;
    DoneWhenNoneReady(op, tx, s.held);
    var wk, ready := AdvanceLoop(op, tx), Ready(op, tx.branches);
    assert WorkerAt(Step(s, Advance(w)), w) == wk;
    if wk.Claiming? {
      assert wk == Claiming(op, tx, ready, 0) && ready[..0] == [];
      assert forall a :: 0 <= a < |ready| ==> ready[a] in ready;
    }
  }

  lemma ClaimFits(s: State, w: nat, op: Operation)
    requires Fits(s, w, op) && WorkerAt(s, w).Claiming?
    ensures Fits(ClaimStep(s, w), w, op)
  {
    var Claiming(o, tx, layer, k) := WorkerAt(s, w);
    var s' := ClaimStep(s, w);
    if k < |layer| {
      var i := layer[k];
      assert i in layer && i !in layer[..k];
      assert layer[..k + 1] == layer[..k] + [i];
      assert KeyOf(tx, i, op) !in s.held;
      var tx' := WorkerAt(s', w).tx;
      assert SameDefinitions(tx.branches, tx'.branches);
      SameGraph(tx'.branches, tx.branches);
    } else {
      assert layer[..k] == layer;
      var tx' := WorkerAt(s', w).tx;
      assert SameDefinitions(tx.branches, tx'.branches);
      SameGraph(tx'.branches, tx.branches);
    }
  }

  lemma PersistFits(s: State, w: nat, now: nat, op: Operation)
    requires Fits(s, w, op) && WorkerAt(s, w).Persisting?
    ensures Fits(PersistStep(s, w, now), w, op)
  {
    var Persisting(o, tx, next) := WorkerAt(s, w);
    if next.Invoke? { assert (map i | i in next.layer :: Spawned).Keys == set i | i in next.layer; }
  }

  lemma PutKeepsGraph(tx: Transaction, i: nat, status: BranchStatus, retry: Option<nat>)
    requires i < |tx.branches| && WellFormed(tx.branches)
    ensures WellFormed(Put(tx, i, status, retry).branches)
  {
    assert SameDefinitions(tx.branches, Put(tx, i, status, retry).branches);
    SameGraph(Put(tx, i, status, retry).branches, tx.branches);
  }

  lemma JoinFits(s: State, w: nat, i: nat, retryAt: nat, op: Operation)
    requires Fits(s, w, op)
    ensures Fits(JoinStep(s, w, i, retryAt), w, op)
  {
    var wk, s' := WorkerAt(s, w), JoinStep(s, w, i, retryAt);
    if wk.Calling? && s' != s {
      PutKeepsGraph(wk.tx, i, if op == Action then BranchStatus.Succeeded else BranchStatus.Skipped, None);
      assert s' == Goto(s, w, JoinOk(wk, i));
      assert (wk.calls - {i}).Keys == wk.calls.Keys - {i};
    }
  }

  lemma CallFits(s: State, w: nat, e: Event, from: nat, op: Operation)
    requires Fits(s, w, op) && WorkerAt(s, w).Calling? && (e.Issue? || e.Answer?) && e.worker == w
    requires from <= |s.log| && NoFailure(Step(s, e).log, from)
    ensures Fits(Step(s, e), w, op)
  {
    var wk, s' := WorkerAt(s, w), Step(s, e);
    if s' != s {
      assert e.Answer? ==> s'.log[|s.log|].ok;
      assert WorkerAt(s', w).calls.Keys == wk.calls.Keys;
    }
  }

  lemma StepFits(s: State, w: nat, e: Event, from: nat, op: Operation)
    requires Fits(s, w, op) && QuietEvent(e, w) && from <= |s.log| && NoFailure(Step(s, e).log, from)
    ensures Fits(Step(s, e), w, op)
  {
    var wk := WorkerAt(s, w);
    match e
    case Persist(_, now) => if wk.Persisting? { PersistFits(s, w, now, op); }
    case Advance(_) => if wk.AtLoop? { AdvanceFits(s, w, op); }
    case Claim(_) => if wk.Claiming? { ClaimFits(s, w, op); }
    case Issue(_, _, _) => if wk.Calling? { CallFits(s, w, e, from, op); }
    case Answer(_, _, _) => if wk.Calling? { CallFits(s, w, e, from, op); }
    case Join(_, i, retryAt) => JoinFits(s, w, i, retryAt, op);
    case _ =>
  }

  lemma {:induction false} RunFits(s: State, w: nat, es: seq<Event>, from: nat, op: Operation)
    requires Fits(s, w, op) && Quiet(es, w) && from <= |s.log| && NoFailure(Exec(s, es).log, from)
    ensures Fits(Exec(s, es), w, op)
    decreases |es|
  {
    if es != [] {
      var s' := Step(s, es[0]);
      LogGrows(s', es[1..]);
      NoFailureBefore(s'.log, Exec(s, es).log, from);
      assert QuietEvent(es[0], w);
      StepFits(s, w, es[0], from, op);
      RunFits(s', w, es[1..], from, op);
    }
  }

  // ---------------------------------------------------------------------
  // A pass that cannot call some branch

  /** Branch i is due and cannot be called. */
  predicate Hindered(op: Operation, tx: Transaction, held: set<Key>, i: nat) {
    i < |tx.branches| && Due(op, tx.branches[i]) && (Waiting(op, tx.branches[i]) ==> KeyOf(tx, i, op) in held)
  }

  ghost predicate Stuck(s: State, w: nat, op: Operation, i: nat) {
    match WorkerAt(s, w)
    case Idle => s.stored.status == Going(op)
    case Persisting(o, tx, Loop) => o == op && Current(s, op, tx) && Hindered(op, tx, s.held, i)
    case Persisting(o, tx, Invoke(layer)) =>
      o == op && Current(s, op, tx) && InLayer(tx, layer) && i !in layer && Hindered(op, tx, s.held, i)
    case AtLoop(o, tx) => o == op && Current(s, op, tx) && s.stored.status == Going(op) && Hindered(op, tx, s.held, i)
    case Claiming(o, tx, layer, k) =>
      && o == op && Current(s, op, tx) && s.stored.status == Going(op) && InLayer(tx, layer) && k <= |layer|
      && (forall j :: j in layer ==> Waiting(op, tx.branches[j]))
      && i !in layer[..k] && Hindered(op, tx, s.held, i)
    case Releasing(_, _, _) => s.stored.status == Going(op)
    case Calling(o, tx, calls, retryable, exhausted) =>
      && o == op && Current(s, op, tx) && !retryable && !exhausted && s.stored.status == Going(op)
      && (forall j :: j in calls ==> j < |tx.branches| && calls[j] != Replied(false))
      && i !in calls && Hindered(op, tx, s.held, i)
    case _ => false
  }

  lemma AdvanceStuck(s: State, w: nat, op: Operation, i: nat)
    requires Stuck(s, w, op, i) && WorkerAt(s, w).AtLoop?
    ensures Stuck(Step(s, Advance(w)), w, op, i)
  {
    var tx := WorkerAt(s, w).tx;
    var wk, ready := AdvanceLoop(op, tx), Ready(op, tx.branches);
    assert !AllSucceeded(tx.branches) || op == Compensate;
    assert !NoneCompensating(tx.branches) || op == Action;
    if wk.Claiming? {
      assert wk == Claiming(op, tx, ready, 0) && ready[..0] == [];
      assert forall a :: 0 <= a < |ready| ==> ready[a] in ready;
    }
  }

  lemma ClaimStuck(s: State, w: nat, op: Operation, i: nat)
    requires Stuck(s, w, op, i) && WorkerAt(s, w).Claiming?
    ensures Stuck(ClaimStep(s, w), w, op, i)
  {
    var Claiming(o, tx, layer, k) := WorkerAt(s, w);
    var s' := ClaimStep(s, w);
    if k < |layer| {
      assert layer[k] in layer && layer[..k + 1] == layer[..k] + [layer[k]];
      if WorkerAt(s', w).Claiming? {
        assert layer[k] != i;
        var tx' := WorkerAt(s', w).tx;
        assert SameDefinitions(tx.branches, tx'.branches);
        SameGraph(tx'.branches, tx.branches);
      }
    } else {
      assert layer[..k] == layer;
      var tx' := WorkerAt(s', w).tx;
      assert SameDefinitions(tx.branches, tx'.branches);
      SameGraph(tx'.branches, tx.branches);
    }
  }

  lemma JoinStuck(s: State, w: nat, j: nat, retryAt: nat, op: Operation, i: nat)
    requires Stuck(s, w, op, i)
    ensures Stuck(JoinStep(s, w, j, retryAt), w, op, i)
  {
    var wk, s' := WorkerAt(s, w), JoinStep(s, w, j, retryAt);
    if wk.Calling? && s' != s {
      PutKeepsGraph(wk.tx, j, if op == Action then BranchStatus.Succeeded else BranchStatus.Skipped, None);
      assert s' == Goto(s, w, JoinOk(wk, j));
    }
  }

  lemma CallStuck(s: State, w: nat, e: Event, from: nat, op: Operation, i: nat)
    requires Stuck(s, w, op, i) && WorkerAt(s, w).Calling? && (e.Issue? || e.Answer?) && e.worker == w
    requires from <= |s.log| && NoFailure(Step(s, e).log, from)
    ensures Stuck(Step(s, e), w, op, i)
  {
    var s' := Step(s, e);
    if s' != s { assert e.Answer? ==> s'.log[|s.log|].ok; }
  }

  lemma StepStuck(s: State, w: nat, e: Event, from: nat, op: Operation, i: nat)
    requires Stuck(s, w, op, i) && QuietEvent(e, w) && from <= |s.log| && NoFailure(Step(s, e).log, from)
    ensures Stuck(Step(s, e), w, op, i)
  {
    var wk := WorkerAt(s, w);
    match e
    case Advance(_) => if wk.AtLoop? { AdvanceStuck(s, w, op, i); }
    case Claim(_) => if wk.Claiming? { ClaimStuck(s, w, op, i); }
    case Issue(_, _, _) => if wk.Calling? { CallStuck(s, w, e, from, op, i); }
    case Answer(_, _, _) => if wk.Calling? { CallStuck(s, w, e, from, op, i); }
    case Join(_, j, retryAt) => JoinStuck(s, w, j, retryAt, op, i);
    case _ =>
  }

  lemma {:induction false} RunStuck(s: State, w: nat, es: seq<Event>, from: nat, op: Operation, i: nat)
    requires Stuck(s, w, op, i) && Quiet(es, w) && from <= |s.log| && NoFailure(Exec(s, es).log, from)
    ensures Stuck(Exec(s, es), w, op, i)
    decreases |es|
  {
    if es != [] {
      var s' := Step(s, es[0]);
      LogGrows(s', es[1..]);
      NoFailureBefore(s'.log, Exec(s, es).log, from);
      assert QuietEvent(es[0], w);
      StepStuck(s, w, es[0], from, op, i);
      RunStuck(s', w, es[1..], from, op, i);
    }
  }

  lemma {:induction false} StaysIdle(s: State, w: nat, es: seq<Event>)
    requires WorkerAt(s, w).Idle? && Quiet(es, w)
    ensures Exec(s, es) == s
    decreases |es|
  {
    if es != [] {
      assert QuietEvent(es[0], w);
      StaysIdle(Step(s, es[0]), w, es[1..]);
    }
  }

  // ---------------------------------------------------------------------
  // Results

  /** Every branch that has not succeeded waits for its call, and its action barrier is free. */
  predicate AllCallable(tx: Transaction, held: set<Key>) {
    forall i: nat :: i < |tx.branches| && !tx.branches[i].status.Succeeded? ==>
      (tx.branches[i].status.Pending? || tx.branches[i].status.Failed?) && Key(tx.branches[i].id, Action) !in held
  }

  /** No branch on record as successful has its compensation barrier held. */
  predicate AllUndoable(tx: Transaction, held: set<Key>) {
    forall i: nat :: i < |tx.branches| && (tx.branches[i].status.Succeeded? || tx.branches[i].status.Compensating?) ==>
      Key(tx.branches[i].id, Compensate) !in held
  }

  /** A start pass that has ended, undisturbed and with no call answered with failure, leaves Succeeded if
      every branch on its way could be called, and Succeeding if not. On a Saga that does not go
      forward it changes nothing. */
  lemma StartPassResult(s: State, w: nat, es: seq<Event>)
    requires WorkerAt(s, w).Idle? && WellFormed(s.stored.branches) && Quiet(es, w)
    requires var end := Exec(s, [Begin(w, Start)] + es); WorkerAt(end, w).Idle? && NoFailure(end.log, |s.log|)
    ensures var end := Exec(s, [Begin(w, Start)] + es);
            if s.stored.status.Submitted? || s.stored.status.Succeeding?
            then end.stored.status == if AllCallable(s.stored, s.held) then TransactionStatus.Succeeded else Succeeding
            else end.stored == s.stored
  {
    var s1 := Step(s, Begin(w, Start));
    assert ([Begin(w, Start)] + es)[1..] == es;
    if s.stored.status.Submitted? || s.stored.status.Succeeding? {
      var tx := WorkerAt(s1, w).tx;
      if AllCallable(s.stored, s.held) {
        assert Clear(Action, tx, s.held, {});
        RunFits(s1, w, es, |s.log|, Action);
      } else {
        var i: nat :| i < |tx.branches| && !tx.branches[i].status.Succeeded? &&
          !((tx.branches[i].status.Pending? || tx.branches[i].status.Failed?) && Key(tx.branches[i].id, Action) !in s.held);
        assert Hindered(Action, tx, s.held, i);
        RunStuck(s1, w, es, |s.log|, Action, i);
      }
    } else {
      StaysIdle(s1, w, es);
    }
  }

  lemma MarkedDue(tx: Transaction, held: set<Key>) returns (i: nat)
    ensures AllUndoable(tx, held) ==> Clear(Compensate, EnterAborting(tx), held, {})
    ensures !AllUndoable(tx, held) ==> Hindered(Compensate, EnterAborting(tx), held, i)
  {
    var marked := EnterAborting(tx);
    assert forall k: nat :: k < |tx.branches| ==>
      (Due(Compensate, marked.branches[k]) <==> Recorded(tx.branches[k])) && marked.branches[k].id == tx.branches[k].id;
    i := 0;
    if !AllUndoable(tx, held) {
      i :| i < |tx.branches| && Recorded(tx.branches[i]) && Key(tx.branches[i].id, Compensate) in held;
    }
  }

  /** The same for an abort pass, which leaves Aborted or Aborting. */
  lemma AbortPassResult(s: State, w: nat, es: seq<Event>)
    requires WorkerAt(s, w).Idle? && WellFormed(s.stored.branches) && Quiet(es, w)
    requires var end := Exec(s, [Begin(w, Abort)] + es); WorkerAt(end, w).Idle? && NoFailure(end.log, |s.log|)
    ensures var end := Exec(s, [Begin(w, Abort)] + es);
            if s.stored.status.Submitted? || s.stored.status.Succeeding? || s.stored.status.Aborting?
            then end.stored.status == if AllUndoable(s.stored, s.held) then Aborted else Aborting
            else end.stored == s.stored
  {
    var s1 := Step(s, Begin(w, Abort));
    assert ([Begin(w, Abort)] + es)[1..] == es;
    if s.stored.status.Submitted? || s.stored.status.Succeeding? || s.stored.status.Aborting? {
      var tx := WorkerAt(s1, w).tx;
      SameGraph(tx.branches, s.stored.branches);
      var i := MarkedDue(s.stored, s.held);
      if AllUndoable(s.stored, s.held) {
        RunFits(s1, w, es, |s.log|, Compensate);
      } else {
        RunStuck(s1, w, es, |s.log|, Compensate, i);
      }
    } else {
      StaysIdle(s1, w, es);
    }
  }
}
