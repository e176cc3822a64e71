/** What an orphaned barrier costs: a commit barrier that a stopped pass left behind makes the next
    pass go past its branch, so Succeeded can be stored without that commit. */
module TwoPhaseOrphans {
  import opened Core
  import opened Edits
  import opened TwoPhase
  import opened TwoPhaseSafety
  import D = TwoPhaseDecisions

  /** No call for an orphaned barrier ever succeeded. */
  ghost predicate Unanswered(s: State) {
    forall key :: key in s.orphaned ==> !OkFor(s.log, key)
  }

  lemma StepUnanswered(s: State, e: Event)
    requires Inv(s) && Unanswered(s)
    ensures Unanswered(Step(s, e))
  {
    if e.Persist? && s.worker.Persisting? { OkForAppend(s.log, Stored(s.worker.tx.status)); }
    if e.Issue? && CallAt(s.worker, Spawned) {
      var key := CurrentKey(s.worker);
      OkForAppend(s.log, Issued(key.op, s.worker.k, key.branch, e.at));
    }
    if e.Answer? && CallAt(s.worker, Open) {
      var key := CurrentKey(s.worker);
      OkForAppend(s.log, Answered(key.op, s.worker.k, key.branch, e.ok));
    }
  }

  lemma {:induction false} ExecUnanswered(s: State, es: seq<Event>)
    requires Inv(s) && Unanswered(s)
    ensures Unanswered(Exec(s, es))
    decreases |es|
  {
    if es != [] {
      StepUnanswered(s, es[0]);
      StepKeeps(s, es[0]);
      ExecUnanswered(Step(s, es[0]), es[1..]);
    }
  }

  /** Exactly the orphans are missing: in a record stored as Succeeded a branch's commit succeeded if and
      only if its barrier was not orphaned; in one stored as Aborted, its undo did if and only if its
      barrier was neither orphaned nor taken without a try; and past Prepared, a submitted branch's try
      did if and only if its barrier was not orphaned. */
  lemma ExactlyOrphansAreMissing(s: State, es: seq<Event>, i: nat)
    requires Fresh(s) && i < |Exec(s, es).stored.branches|
    ensures var end := Exec(s, es);
            var commit, undo := KeyAt(Committing, end.stored, i), KeyAt(Undoing, end.stored, i);
            && (end.stored.status.Succeeded? ==> (OkFor(end.log, commit) <==> commit !in end.orphaned))
            && (end.stored.status.Aborted? ==>
                  (OkFor(end.log, undo) <==> undo !in end.orphaned && undo !in end.nulled))
            && (end.stored.kind.Tcc? && (end.stored.status.Prepared? || CommitStatus(end.stored.status)) && i < |s.names| ==>
                  var try := KeyAt(Pass.Trying, end.stored, i); OkFor(end.log, try) <==> try !in end.orphaned)
  {
    FreshInv(s);
    ExecKeeps(s, es);
    ExecUnanswered(s, es);
    ExecNulled(s, es);
    NamesStay(s, es);
    var end := Exec(s, es);
    var id, kind := end.stored.branches[i].id, end.stored.kind;
    if end.stored.status.Succeeded? { assert Done(end, Committing, kind, id); }
    if end.stored.status.Aborted? { assert Done(end, Undoing, kind, id); }
    if kind.Tcc? && (end.stored.status.Prepared? || CommitStatus(end.stored.status)) && i < |s.names| {
      assert Done(end, Pass.Trying, kind, id);
    }
  }

  /** Nothing was ever called for a barrier taken without a try. */
  ghost predicate NulledUncalled(s: State) {
    forall key :: key in s.nulled ==> !OkFor(s.log, key) && !Holds(s.worker, key)
  }

  lemma NulledAnswer(s: State, ok: bool)
    requires Inv(s) && NulledUncalled(s)
    ensures NulledUncalled(AnswerStep(s, ok))
  {
    if CallAt(s.worker, Open) {
      var key := CurrentKey(s.worker);
      OkForAppend(s.log, Answered(key.op, s.worker.k, key.branch, ok));
    }
  }

  lemma NulledAdvance(s: State, retryAt: nat)
    requires Inv(s) && NulledUncalled(s)
    ensures NulledUncalled(AdvanceStep(s, retryAt))
  {
    if s.worker.Looping? && s.worker.k < |s.worker.tx.branches| {
      var key := KeyAt(s.worker.pass, s.worker.tx, s.worker.k);
      assert OkFor(s.log, key) ==> key in s.held;
    }
  }

  lemma StepNulled(s: State, e: Event)
    requires Inv(s) && NulledUncalled(s)
    ensures NulledUncalled(Step(s, e))
  {
    match e
    case Persist(_) => if s.worker.Persisting? { OkForAppend(s.log, Stored(s.worker.tx.status)); }
    case Advance(retryAt) => NulledAdvance(s, retryAt);
    case Issue(at) =>
      if CallAt(s.worker, Spawned) {
        var key := CurrentKey(s.worker);
        OkForAppend(s.log, Issued(key.op, s.worker.k, key.branch, at));
      }
    case Answer(ok) => NulledAnswer(s, ok);
    case _ =>
  }

  lemma {:induction false} ExecNulled(s: State, es: seq<Event>)
    requires Inv(s) && NulledUncalled(s)
    ensures NulledUncalled(Exec(s, es))
    decreases |es|
  {
    if es != [] {
      StepNulled(s, es[0]);
      StepKeeps(s, es[0]);
      ExecNulled(Step(s, es[0]), es[1..]);
    }
  }

  /** The key is held without a success, and the worker is in a commit pass over callable branches. */
  predicate Missing(s: State, key: Key) {
    && key in s.held && !OkFor(s.log, key)
    && s.worker.Looping? && s.worker.pass.Committing? && AllCallable(s.worker.tx.kind, s.worker.tx.branches)
  }

  lemma PassesOver(s: State, key: Key, tx: Transaction, k: nat)
    requires Missing(s, key) && s.worker == Looping(Committing, tx, k) && k < |tx.branches|
    requires KeyAt(Committing, tx, k) in s.held
    ensures Step(s, Advance(0)) == s.(worker := Looping(Committing, tx, k + 1))
  {
  }

  lemma Claims(s: State, key: Key, tx: Transaction, k: nat)
    requires Missing(s, key) && s.worker == Looping(Committing, tx, k) && k < |tx.branches|
    requires KeyAt(Committing, tx, k) !in s.held
    ensures var t := Step(s, Advance(0));
            && t.worker.Calling? && t.worker == Calling(Committing, t.worker.tx, k, Spawned)
            && t.log == s.log && key in t.held && t.worker.tx.kind == tx.kind
            && |t.worker.tx.branches| == |tx.branches| && AllCallable(tx.kind, t.worker.tx.branches)
            && KeyAt(Committing, t.worker.tx, k) == KeyAt(Committing, tx, k)
  {
    assert Callable(tx.kind, tx.branches[k]);
    var bs := tx.branches[k := CountAttempt(tx.branches[k])];
    forall i | 0 <= i < |bs| ensures Callable(tx.kind, bs[i]) { assert Callable(tx.kind, tx.branches[i]); }
  }

  lemma Succeeds(s: State, key: Key, tx: Transaction, k: nat)
    requires s.worker == Calling(Committing, tx, k, Spawned) && k < |tx.branches| && AllCallable(tx.kind, tx.branches)
    requires key in s.held && !OkFor(s.log, key) && key != KeyAt(Committing, tx, k)
    ensures var t := Step(Step(Step(s, Issue(0)), Answer(true)), Advance(0));
            Missing(t, key) && t.worker.k == k + 1 && |t.worker.tx.branches| == |tx.branches|
  {
    var own := KeyAt(Committing, tx, k);
    OkForAppend(s.log, Issued(own.op, k, own.branch, 0));
    OkForAppend(s.log + [Issued(own.op, k, own.branch, 0)], Answered(own.op, k, own.branch, true));
    var bs := Put(tx, k, BranchStatus.Succeeded, None).branches;
    forall i | 0 <= i < |bs| ensures Callable(tx.kind, bs[i]) { assert Callable(tx.kind, tx.branches[i]); }
  }

  lemma Finishes(s: State, key: Key)
    requires Missing(s, key) && s.worker.k >= |s.worker.tx.branches|
    ensures var t := Exec(s, [Advance(0), Persist(0)]); t.stored.status.Succeeded? && !OkFor(t.log, key)
  {
    var s1 := Step(s, Advance(0));
    assert [Advance(0), Persist(0)][1..] == [Persist(0)] && [Persist(0)][1..] == [];
    assert Exec(s1, [Persist(0)]) == Exec(Step(s1, Persist(0)), []);
    OkForAppend(s.log, Stored(TransactionStatus.Succeeded));
  }

  lemma {:induction false} RunsPast(s: State, key: Key) returns (es: seq<Event>)
    requires Missing(s, key)
    ensures Exec(s, es).stored.status.Succeeded? && !OkFor(Exec(s, es).log, key)
    decreases |s.worker.tx.branches| - s.worker.k
  {
    var tx, k := s.worker.tx, s.worker.k;
    if k >= |tx.branches| {
      es := [Advance(0), Persist(0)];
      Finishes(s, key);
    } else if KeyAt(Committing, tx, k) in s.held {
      PassesOver(s, key, tx, k);
      var rest := RunsPast(Step(s, Advance(0)), key);
      es := [Advance(0)] + rest;
      assert es[1..] == rest;
    } else {
      Claims(s, key, tx, k);
      var t := Step(s, Advance(0));
      Succeeds(t, key, t.worker.tx, k);
      var call := [Advance(0), Issue(0), Answer(true), Advance(0)];
      D.RunFour(s, Advance(0), Issue(0), Answer(true), Advance(0));
      var rest := RunsPast(Exec(s, call), key);
      D.ExecAppend(s, call, rest);
      es := call + rest;
    }
  }

  /** Every orphaned commit barrier of a decided transaction can cost its commit: some continuation
      stores Succeeded although that branch was never committed. */
  lemma OrphanCostsCommit(s: State, run: seq<Event>, i: nat) returns (es: seq<Event>)
    requires Fresh(s) && Exec(s, run).worker.Idle? && Exec(s, run).stored.status.Succeeding?
    requires AllCallable(Exec(s, run).stored.kind, Exec(s, run).stored.branches)
    requires i < |Exec(s, run).stored.branches| && KeyAt(Committing, Exec(s, run).stored, i) in Exec(s, run).orphaned
    ensures var end := Exec(Exec(s, run), [Begin(Request.Complete)] + es);
            end.stored.status.Succeeded? && !OkFor(end.log, KeyAt(Committing, Exec(s, run).stored, i))
  {
    FreshInv(s);
    ExecKeeps(s, run);
    ExecUnanswered(s, run);
    var now := Exec(s, run);
    var begun := Step(now, Begin(Request.Complete));
    assert begun.worker == Looping(Committing, now.stored, 0);
    es := RunsPast(begun, KeyAt(Committing, now.stored, i));
    assert ([Begin(Request.Complete)] + es)[1..] == es;
  }
}
