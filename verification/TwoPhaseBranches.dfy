/** TCC and XA branch by branch. Barriers are keyed by branch id, and submission does not check that the
    ids of these transactions differ: of branches that share an id only the first is ever called. With
    unique ids, what holds of barriers holds of branches. */
module TwoPhaseBranches {
  import opened Core
  import opened Edits
  import opened TwoPhase
  import opened TwoPhaseSafety
  import G = DependencyGraph
  import D = TwoPhaseDecisions

  // ---------------------------------------------------------------------
  // Names

  /** Calls name their branch; registered ids are new; a null compensation belongs to a branch with an
      action of its own. */
  ghost predicate Named(s: State) {
    && (forall p :: 0 <= p < |s.log| && !s.log[p].Stored? ==>
          s.log[p].index < |s.stored.branches| && s.log[p].id == s.stored.branches[s.log[p].index].id)
    && (forall i, j :: 0 <= i < j < |s.stored.branches| && |s.names| <= j ==>
          s.stored.branches[i].id != s.stored.branches[j].id)
    && (forall key :: key in s.nulled ==> HasAction(s.stored.branches, key.branch))
  }

  predicate HasAction(bs: seq<Branch>, id: string) {
    exists i :: 0 <= i < |bs| && bs[i].id == id && bs[i].action != ""
  }

  lemma HasActionSame(a: seq<Branch>, b: seq<Branch>, id: string)
    requires |a| <= |b| && HasAction(a, id)
    requires forall i :: 0 <= i < |a| ==> a[i].id == b[i].id && a[i].action == b[i].action
    ensures HasAction(b, id)
  {
    var i :| 0 <= i < |a| && a[i].id == id && a[i].action != "";
    assert b[i].id == id && b[i].action != "";
  }

  /** The record gained at most new branches. */
  lemma StillNamed(s: State, s': State)
    requires Named(s) && s'.log == s.log && s'.nulled == s.nulled && s'.names == s.names
    requires |s.stored.branches| <= |s'.stored.branches|
    requires forall i :: 0 <= i < |s.stored.branches| ==>
               s.stored.branches[i].id == s'.stored.branches[i].id && s.stored.branches[i].action == s'.stored.branches[i].action
    requires forall i, j :: 0 <= i < j < |s'.stored.branches| && |s.stored.branches| <= j ==>
               s'.stored.branches[i].id != s'.stored.branches[j].id
    ensures Named(s')
  {
    forall key | key in s'.nulled ensures HasAction(s'.stored.branches, key.branch) {
      HasActionSame(s.stored.branches, s'.stored.branches, key.branch);
    }
  }

  lemma RegisterNamed(s: State, b: Branch, now: nat)
    requires Named(s)
    ensures Named(s.(stored := Registered(s.stored, b, now)))
  {
    var s' := s.(stored := Registered(s.stored, b, now));
    if s'.stored != s.stored { assert s'.stored.branches == s.stored.branches + [b]; }
    StillNamed(s, s');
  }

  lemma PersistNamed(s: State, time: nat)
    requires Inv(s) && Named(s)
    ensures Named(PersistStep(s, time))
  {
    if s.worker.Persisting? {
      var tx := s.worker.tx;
      forall i | 0 <= i < |tx.branches|
        ensures tx.branches[i].id == s.stored.branches[i].id && tx.branches[i].action == s.stored.branches[i].action {
        assert Definition(tx.branches[i]) == Definition(s.stored.branches[i]);
      }
      StillNamed(s, s.(stored := Bumped(tx, time)));
    }
  }

  lemma LoopNamed(s: State, pass: Pass, tx: Transaction, k: nat)
    requires Inv(s) && Named(s) && s.worker == Looping(pass, tx, k) && k < |tx.branches|
    ensures Named(AdvanceLoop(s, pass, tx, k))
  {
    assert Definition(tx.branches[k]) == Definition(s.stored.branches[k]);
    var s' := AdvanceLoop(s, pass, tx, k);
    forall key | key in s'.nulled ensures HasAction(s.stored.branches, key.branch) {
      if key !in s.nulled { assert s.stored.branches[k].id == key.branch && s.stored.branches[k].action != ""; }
    }
  }

  lemma CallNamed(s: State, e: LogEvent)
    requires Inv(s) && Named(s) && s.worker.Calling? && !e.Stored?
    requires e.index == s.worker.k && e.id == CurrentKey(s.worker).branch
    ensures Named(s.(log := s.log + [e]))
  {
    var tx, k := s.worker.tx, s.worker.k;
    assert Definition(tx.branches[k]) == Definition(s.stored.branches[k]);
  }

  lemma StepNamed(s: State, e: Event)
    requires Inv(s) && Named(s)
    ensures Named(Step(s, e))
  {
    match e
    case Register(b, now) => if s.worker.Idle? { RegisterNamed(s, b, now); }
    case Persist(time) => PersistNamed(s, time);
    case Advance(_) =>
      if s.worker.Looping? && s.worker.k < |s.worker.tx.branches| { LoopNamed(s, s.worker.pass, s.worker.tx, s.worker.k); }
    case Issue(at) =>
      if CallAt(s.worker, Spawned) {
        var key := CurrentKey(s.worker);
        CallNamed(s, Issued(key.op, s.worker.k, key.branch, at));
      }
    case Answer(ok) =>
      if CallAt(s.worker, Open) {
        var key := CurrentKey(s.worker);
        CallNamed(s, Answered(key.op, s.worker.k, key.branch, ok));
      }
    case _ =>
  }

  lemma {:induction false} ExecNamed(s: State, es: seq<Event>)
    requires Inv(s) && Named(s)
    ensures Named(Exec(s, es))
    decreases |es|
  {
    if es != [] {
      StepNamed(s, es[0]);
      StepKeeps(s, es[0]);
      ExecNamed(Step(s, es[0]), es[1..]);
    }
  }

  /** Ids that differ at submission differ throughout. */
  lemma UniqueStays(s: State, es: seq<Event>)
    requires Fresh(s)
    ensures Inv(Exec(s, es)) && Named(Exec(s, es)) && Exec(s, es).names == s.names
    ensures G.UniqueIds(Exec(s, es).stored.branches) <==> G.UniqueIds(s.stored.branches)
  {
    FreshInv(s);
    ExecKeeps(s, es);
    ExecNamed(s, es);
    NamesStay(s, es);
    var end := Exec(s, es);
    forall i | 0 <= i < |s.names| ensures end.stored.branches[i].id == s.stored.branches[i].id {
    }
  }

  /** With unique ids, the barrier's success is the branch's. */
  lemma ByIndex(s: State, op: Operation, i: nat)
    requires Named(s) && G.UniqueIds(s.stored.branches) && i < |s.stored.branches|
    requires OkFor(s.log, Key(s.stored.branches[i].id, op))
    ensures AnsweredOk(s.log, op, i)
  {
    var p :| 0 <= p < |s.log| && SuccessOf(s.log[p], Key(s.stored.branches[i].id, op));
    assert s.log[p].index == i;
  }

  // ---------------------------------------------------------------------
  // Final statuses

  /** What a branch must have been to require an undo call when the transaction aborts: in XA always, in
      TCC when its try holds its barrier, or was executed outside the coordinator. */
  predicate NeedsUndo(s: State, i: nat)
    requires i < |s.stored.branches|
  {
    s.stored.kind.Xa? || Key(s.stored.branches[i].id, Try) in s.held || s.stored.branches[i].action == ""
  }

  /** With unique ids, branch by branch: a stored Succeeded means that the branch was committed, a stored
      Aborted that it was undone wherever that is needed. The exceptions are orphaned barriers. */
  lemma FinalStatusByBranch(s: State, es: seq<Event>, i: nat)
    requires Fresh(s) && G.UniqueIds(s.stored.branches) && i < |Exec(s, es).stored.branches|
    ensures var end := Exec(s, es);
            var id, commit, undo := end.stored.branches[i].id, OpOf(end.stored.kind, Committing), OpOf(end.stored.kind, Undoing);
            && (end.stored.status.Succeeded? ==> AnsweredOk(end.log, commit, i) || Key(id, commit) in end.orphaned)
            && (end.stored.status.Aborted? && NeedsUndo(end, i) ==>
                  AnsweredOk(end.log, undo, i) || Key(id, undo) in end.orphaned)
  {
    UniqueStays(s, es);
    FinalStatus(s, es, i);
    var end := Exec(s, es);
    var id, commit, undo := end.stored.branches[i].id, OpOf(end.stored.kind, Committing), OpOf(end.stored.kind, Undoing);
    if OkFor(end.log, Key(id, commit)) { ByIndex(end, commit, i); }
    if OkFor(end.log, Key(id, undo)) { ByIndex(end, undo, i); }
    if end.stored.status.Aborted? && end.stored.branches[i].action == "" {
      assert Done(end, Undoing, end.stored.kind, id);
      assert Key(id, undo) !in end.nulled by { OnlyBranch(end.stored.branches, i); }
    }
  }

  lemma OnlyBranch(bs: seq<Branch>, i: nat)
    requires G.UniqueIds(bs) && i < |bs| && bs[i].action == ""
    ensures !HasAction(bs, bs[i].id)
  {
  }

  /** With unique ids and no pass that stops, no exceptions are left. */
  lemma OrderlyRunsByBranch(s: State, es: seq<Event>, i: nat)
    requires Fresh(s) && G.UniqueIds(s.stored.branches) && AllCallable(s.stored.kind, s.stored.branches)
    requires forall k :: 0 <= k < |es| ==> Orderly(s.stored.kind, es[k])
    requires i < |Exec(s, es).stored.branches|
    ensures var end := Exec(s, es);
            && (end.stored.status.Succeeded? ==> AnsweredOk(end.log, OpOf(end.stored.kind, Committing), i))
            && (end.stored.status.Aborted? && NeedsUndo(end, i) ==>
                  AnsweredOk(end.log, OpOf(end.stored.kind, Undoing), i))
  {
    FreshInv(s);
    OrderlyRuns(s, es);
    FinalStatusByBranch(s, es, i);
  }

  /** With unique ids, a confirm is called only after the try of every submitted branch succeeded, except
      branches whose try was orphaned by then. */
  lemma ConfirmsAfterTriesByBranch(s: State, es: seq<Event>, i: nat)
    requires Fresh(s) && G.UniqueIds(s.stored.branches) && i < |s.stored.branches|
    requires CallAt(Exec(s, es).worker, Spawned) && CurrentKey(Exec(s, es).worker).op == Confirm
    ensures AnsweredOk(Exec(s, es).log, Try, i) || Key(s.stored.branches[i].id, Try) in Exec(s, es).orphaned
  {
    UniqueStays(s, es);
    ConfirmsAfterTries(s, es);
    var end := Exec(s, es);
    assert Tried(end.log, end.orphaned, s.names[i]);
    if OkFor(end.log, Key(s.names[i], Try)) { ByIndex(end, Try, i); }
  }

  // ---------------------------------------------------------------------
  // Repeated ids

  /** Whoever calls branch k has dealt with every earlier one, so none has its id. */
  lemma CallsFirstOnly(s: State, j: nat)
    requires Inv(s) && s.worker.Calling? && s.worker.call != Replied(true) && j < s.worker.k < |s.names|
    ensures s.names[j] != s.names[s.worker.k]
  {
    var tx, k := s.worker.tx, s.worker.k;
    assert Definition(tx.branches[j]) == Definition(s.stored.branches[j]);
    assert Definition(tx.branches[k]) == Definition(s.stored.branches[k]);
    assert Done(s, s.worker.pass, tx.kind, tx.branches[j].id);
    assert FreshClaim(s, CurrentKey(s.worker));
  }

  predicate NeverCalled(log: seq<LogEvent>, i: nat) {
    forall p :: 0 <= p < |log| && !log[p].Stored? ==> log[p].index != i
  }

  lemma CallNever(s: State, e: LogEvent, j: nat, i: nat)
    requires Inv(s) && j < i < |s.names| && s.names[j] == s.names[i] && NeverCalled(s.log, i)
    requires s.worker.Calling? && s.worker.call != Replied(true) && !e.Stored? && e.index == s.worker.k
    ensures NeverCalled(s.log + [e], i)
  {
    if s.worker.k == i { CallsFirstOnly(s, j); }
  }

  lemma StepNeverCalls(s: State, e: Event, j: nat, i: nat)
    requires Inv(s) && j < i < |s.names| && s.names[j] == s.names[i] && NeverCalled(s.log, i)
    ensures NeverCalled(Step(s, e).log, i) && Step(s, e).names == s.names
  {
    match e
    case Issue(at) =>
      if CallAt(s.worker, Spawned) {
        var key := CurrentKey(s.worker);
        CallNever(s, Issued(key.op, s.worker.k, key.branch, at), j, i);
      }
    case Answer(ok) =>
      if CallAt(s.worker, Open) {
        var key := CurrentKey(s.worker);
        CallNever(s, Answered(key.op, s.worker.k, key.branch, ok), j, i);
      }
    case _ =>
  }

  lemma {:induction false} ExecNeverCalls(s: State, es: seq<Event>, j: nat, i: nat)
    requires Inv(s) && j < i < |s.names| && s.names[j] == s.names[i] && NeverCalled(s.log, i)
    ensures NeverCalled(Exec(s, es).log, i)
    decreases |es|
  {
    if es != [] {
      StepNeverCalls(s, es[0], j, i);
      StepKeeps(s, es[0]);
      ExecNeverCalls(Step(s, es[0]), es[1..], j, i);
    }
  }

  /** A branch that repeats an earlier id is never called, neither its try nor its commit nor its undo. */
  lemma RepeatedIsNeverCalled(s: State, es: seq<Event>, j: nat, i: nat)
    requires Fresh(s) && j < i < |s.stored.branches| && s.stored.branches[j].id == s.stored.branches[i].id
    ensures NeverCalled(Exec(s, es).log, i)
  {
    FreshInv(s);
    ExecNeverCalls(s, es, j, i);
  }

  /** Unique ids are exactly what is needed: an orderly run that stores Succeeded has committed every
      branch if and only if the submitted ids differ. */
  lemma CommittedIffUnique(s: State, es: seq<Event>)
    requires Fresh(s) && AllCallable(s.stored.kind, s.stored.branches)
    requires forall k :: 0 <= k < |es| ==> Orderly(s.stored.kind, es[k])
    requires Exec(s, es).stored.status.Succeeded?
    ensures var end := Exec(s, es);
            (forall i: nat :: i < |end.stored.branches| ==> AnsweredOk(end.log, OpOf(end.stored.kind, Committing), i))
            <==> G.UniqueIds(s.stored.branches)
  {
    var end := Exec(s, es);
    UniqueStays(s, es);
    if G.UniqueIds(s.stored.branches) {
      forall i: nat | i < |end.stored.branches| ensures AnsweredOk(end.log, OpOf(end.stored.kind, Committing), i) {
        OrderlyRunsByBranch(s, es, i);
      }
    } else {
      var j, i :| 0 <= j < i < |s.stored.branches| && s.stored.branches[j].id == s.stored.branches[i].id;
      RepeatedIsNeverCalled(s, es, j, i);
      assert !AnsweredOk(end.log, OpOf(end.stored.kind, Committing), i);
    }
  }

  // ---------------------------------------------------------------------
  // Such runs exist, whatever the ids

  predicate Plain(es: seq<Event>) {
    forall k :: 0 <= k < |es| ==> !es[k].Crash? && !es[k].Register?
  }

  predicate NoCancel(held: set<Key>) { forall key :: key in held ==> key.op != Cancel }

  /** A try or commit pass over branches that can be called. */
  predicate Through(s: State) {
    && s.worker.Looping? && !s.worker.pass.Undoing? && NoCancel(s.held)
    && AllCallable(s.worker.tx.kind, s.worker.tx.branches) && s.worker.k <= |s.worker.tx.branches|
  }

  /** The branch is passed, being done or held. */
  lemma Skips(s: State, pass: Pass, tx: Transaction, k: nat)
    requires Through(s) && s.worker == Looping(pass, tx, k) && k < |tx.branches|
    requires (pass.Trying? && tx.branches[k].status.Succeeded?) || KeyAt(pass, tx, k) in s.held
    ensures Step(s, Advance(0)) == s.(worker := Looping(pass, tx, k + 1))
  {
  }

  lemma EditCallable(kind: TransactionKind, bs: seq<Branch>, k: nat, b: Branch)
    requires AllCallable(kind, bs) && k < |bs| && Definition(b) == Definition(bs[k])
    ensures AllCallable(kind, bs[k := b])
  {
    assert Callable(kind, bs[k]);
    var next := bs[k := b];
    forall i | 0 <= i < |next| ensures Callable(kind, next[i]) { assert Callable(kind, bs[i]); }
  }

  lemma Claims(s: State, pass: Pass, tx: Transaction, k: nat)
    requires Through(s) && s.worker == Looping(pass, tx, k) && k < |tx.branches|
    requires !(pass.Trying? && tx.branches[k].status.Succeeded?) && KeyAt(pass, tx, k) !in s.held
    ensures var t := Step(s, Advance(0));
            && t.worker.Calling? && t.worker == Calling(pass, t.worker.tx, k, Spawned) && t.worker.tx.kind == tx.kind
            && |t.worker.tx.branches| == |tx.branches| && AllCallable(tx.kind, t.worker.tx.branches) && NoCancel(t.held)
  {
    var b := if pass.Trying? then StartRunning(tx.branches[k]) else CountAttempt(tx.branches[k]);
    assert Callable(tx.kind, tx.branches[k]);
    assert Decide(s.held, KeyAt(pass, tx, k)) == Execute;
    EditCallable(tx.kind, tx.branches, k, b);
  }

  lemma Succeeds(s: State, pass: Pass, tx: Transaction, k: nat)
    requires s.worker == Calling(pass, tx, k, Spawned) && k < |tx.branches| && !pass.Undoing?
    requires AllCallable(tx.kind, tx.branches) && NoCancel(s.held)
    ensures var t := Step(Step(Step(s, Issue(0)), Answer(true)), Advance(0));
            && Through(t) && t.worker.pass == pass && t.worker.k == k + 1 && t.worker.tx.kind == tx.kind
            && |t.worker.tx.branches| == |tx.branches|
  {
    EditCallable(tx.kind, tx.branches, k, tx.branches[k].(status := BranchStatus.Succeeded, nextRetry := None));
  }

  lemma {:induction false} RunsThrough(s: State) returns (es: seq<Event>)
    requires Through(s)
    ensures var t := Exec(s, es);
            && Plain(es) && NoCancel(t.held) && t.worker.Persisting? && t.worker.tx.status == Finished(s.worker.pass)
            && t.worker.tx.kind == s.worker.tx.kind && AllCallable(t.worker.tx.kind, t.worker.tx.branches)
    decreases |s.worker.tx.branches| - s.worker.k
  {
    var pass, tx, k := s.worker.pass, s.worker.tx, s.worker.k;
    var s1 := Step(s, Advance(0));
    if k == |tx.branches| {
      es := [Advance(0)];
      assert es[1..] == [] && Exec(s1, []) == s1;
    } else if (pass.Trying? && tx.branches[k].status.Succeeded?) || KeyAt(pass, tx, k) in s.held {
      Skips(s, pass, tx, k);
      var rest := RunsThrough(s1);
      es := [Advance(0)] + rest;
      assert es[1..] == rest;
    } else {
      Claims(s, pass, tx, k);
      Succeeds(s1, pass, s1.worker.tx, k);
      D.RunFour(s, Advance(0), Issue(0), Answer(true), Advance(0));
      var call := [Advance(0), Issue(0), Answer(true), Advance(0)];
      var rest := RunsThrough(Exec(s, call));
      es := call + rest;
      D.ExecAppend(s, call, rest);
    }
  }

  lemma RunOne(s: State, e: Event)
    ensures Exec(s, [e]) == Step(s, e)
  {
    var t := Step(s, e);
    assert [e][1..] == [] && Exec(t, []) == t;
  }

  /** From an idle Prepared record, a commit pass stores Succeeded. */
  lemma Commits(s: State) returns (es: seq<Event>)
    requires s.worker.Persisting? && s.worker.tx.status.Prepared? && NoCancel(s.held)
    requires AllCallable(s.worker.tx.kind, s.worker.tx.branches)
    ensures Plain(es) && Exec(s, es).stored.status.Succeeded?
  {
    var s1 := Step(s, Persist(0));
    var s2 := Step(s1, Begin(Request.Complete));
    assert s2.worker.Looping? && s2.worker.pass.Committing? && s2.worker.k == 0;
    var loop := RunsThrough(s2);
    var t := Exec(s2, loop);
    RunOne(t, Persist(0));
    D.ExecAppend(s2, loop, [Persist(0)]);
    var rest := loop + [Persist(0)];
    es := [Persist(0), Begin(Request.Complete)] + rest;
    assert es[1..] == [Begin(Request.Complete)] + rest && es[1..][1..] == rest;
    assert Exec(s, es) == Exec(s1, es[1..]);
    assert Exec(s1, es[1..]) == Exec(s2, rest);
  }

  /** Every TCC or XA transaction whose branches can be called has a run without stops that stores
      Succeeded: with RepeatedIsNeverCalled, one with a repeated id succeeds without calling it. */
  lemma SucceedsWithoutStops(s: State) returns (es: seq<Event>)
    requires Fresh(s) && AllCallable(s.stored.kind, s.stored.branches)
    ensures Plain(es) && Exec(s, es).stored.status.Succeeded?
  {
    var s1 := Step(s, Begin(Prepare));
    var prepare: seq<Event> := [];
    if s.stored.kind.Tcc? { prepare := RunsThrough(s1); } else { assert Exec(s1, []) == s1; }
    var rest := Commits(Exec(s1, prepare));
    D.ExecAppend(s1, prepare, rest);
    es := [Begin(Prepare)] + (prepare + rest);
    assert es[1..] == prepare + rest;
  }
}
