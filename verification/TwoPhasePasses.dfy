/** What one undisturbed pass of a TCC or XA transaction leaves: the tries lead to Prepared unless a branch
    was cancelled before, and the commit and undo passes lead to their final status unless a branch that
    they have to call names no URL. */
module TwoPhasePasses {
  import opened Core
  import opened Edits
  import opened Attempts
  import opened TwoPhase
  import M = TwoPhaseMixing

  /** The steps of one pass, without a stop. */
  predicate Quiet(es: seq<Event>) { forall k :: 0 <= k < |es| ==> QuietEvent(es[k]) }

  predicate QuietEvent(e: Event) { e.Persist? || e.Advance? || e.Issue? || e.Answer? }

  predicate NoFailure(log: seq<LogEvent>, from: nat) {
    forall p :: from <= p < |log| && log[p].Answered? ==> log[p].ok
  }

  lemma {:induction false} LogGrows(s: State, es: seq<Event>)
    ensures s.log <= Exec(s, es).log
    decreases |es|
  {
    if es != [] { LogGrows(Step(s, es[0]), es[1..]); }
  }

  lemma NoFailureBefore(log: seq<LogEvent>, more: seq<LogEvent>, from: nat)
    requires log <= more && NoFailure(more, from)
    ensures NoFailure(log, from)
  {
    assert forall p :: 0 <= p < |log| ==> log[p] == more[p];
  }

  lemma {:induction false} StaysIdle(s: State, es: seq<Event>)
    requires s.worker.Idle? && Quiet(es)
    ensures Exec(s, es) == s
    decreases |es|
  {
    if es != [] {
      assert QuietEvent(es[0]);
      StaysIdle(Step(s, es[0]), es[1..]);
    }
  }

  // ---------------------------------------------------------------------
  // The tries

  /** From branch k on, some branch was cancelled before its try. */
  predicate BlockedFrom(bs: seq<Branch>, held: set<Key>, k: nat) {
    exists i: nat :: k <= i < |bs| && M.BlockedAt(bs, held, i)
  }

  predicate TryFits(s: State, blocked: bool) {
    match s.worker
    case Idle => s.stored.status == if blocked then Aborting else Prepared
    case Persisting(tx) => tx.status == if blocked then Aborting else Prepared
    case Looping(pass, tx, k) =>
      pass.Trying? && tx.kind.Tcc? && BlockedFrom(tx.branches, s.held, k) == blocked
    case Calling(pass, tx, k, call) =>
      && pass.Trying? && tx.kind.Tcc? && k < |tx.branches| && call != Replied(false)
      && BlockedFrom(tx.branches, s.held, k + 1) == blocked
  }

  lemma BlockedSame(a: seq<Branch>, b: seq<Branch>, held: set<Key>, k: nat)
    requires |a| == |b| && forall i: nat :: k <= i < |a| ==> a[i] == b[i]
    ensures BlockedFrom(a, held, k) == BlockedFrom(b, held, k)
  {
    forall i: nat | k <= i < |a| ensures M.BlockedAt(a, held, i) == M.BlockedAt(b, held, i) { }
  }

  lemma TryAdvance(s: State, tx: Transaction, k: nat, blocked: bool)
    requires s.worker == Looping(Pass.Trying, tx, k) && TryFits(s, blocked) && k < |tx.branches|
    ensures TryFits(AdvanceLoop(s, Pass.Trying, tx, k), blocked)
  {
    var s' := AdvanceLoop(s, Pass.Trying, tx, k);
    var bs, key := tx.branches, KeyAt(Pass.Trying, tx, k);
    BlockedNext(bs, s.held, k);
    if s'.worker.Calling? {
      BlockedSame(bs, s'.worker.tx.branches, s'.held, k + 1);
      assert Key(bs[k].id, Cancel) !in s.held;
      forall i: nat | k < i < |bs| ensures M.BlockedAt(bs, s.held, i) == M.BlockedAt(bs, s'.held, i) { }
    }
  }

  lemma BlockedNext(bs: seq<Branch>, held: set<Key>, k: nat)
    requires k < |bs|
    ensures BlockedFrom(bs, held, k) <==> M.BlockedAt(bs, held, k) || BlockedFrom(bs, held, k + 1)
  {
  }

  lemma TryStep(s: State, e: Event, blocked: bool, from: nat)
    requires TryFits(s, blocked) && QuietEvent(e) && from <= |s.log| && NoFailure(Step(s, e).log, from)
    ensures TryFits(Step(s, e), blocked)
  {
    var s' := Step(s, e);
    match s.worker
    case Looping(pass, tx, k) => if e.Advance? && k < |tx.branches| { TryAdvance(s, tx, k, blocked); }
    case Calling(pass, tx, k, call) =>
      if e.Advance? && s'.worker.Looping? { BlockedSame(tx.branches, s'.worker.tx.branches, s.held, k + 1); }
      if e.Answer? && call == Open { assert s'.log[|s.log|].ok; }
    case _ =>
  }

  lemma {:induction false} TryRuns(s: State, es: seq<Event>, blocked: bool, from: nat)
    requires TryFits(s, blocked) && Quiet(es) && from <= |s.log| && NoFailure(Exec(s, es).log, from)
    ensures TryFits(Exec(s, es), blocked)
    decreases |es|
  {
    if es != [] {
      var s' := Step(s, es[0]);
      LogGrows(s', es[1..]);
      NoFailureBefore(s'.log, Exec(s, es).log, from);
      assert QuietEvent(es[0]);
      TryStep(s, es[0], blocked, from);
      TryRuns(s', es[1..], blocked, from);
    }
  }

  /** A prepare pass that has ended, undisturbed and with no call answered with failure, leaves Prepared; a
      TCC pass that meets a branch cancelled before its try leaves Aborting instead. In any other
      status it changes nothing. */
  lemma PreparePassResult(s: State, es: seq<Event>)
    requires s.worker.Idle? && Quiet(es) && (s.stored.kind.Tcc? || s.stored.kind.Xa?)
    requires var end := Exec(s, [Begin(Prepare)] + es); end.worker.Idle? && NoFailure(end.log, |s.log|)
    ensures var end := Exec(s, [Begin(Prepare)] + es);
            if s.stored.status.Submitted? || (s.stored.kind.Tcc? && s.stored.status.Trying?)
            then end.stored.status ==
                 if s.stored.kind.Tcc? && M.Blocked(s.stored.branches, s.held) then Aborting else Prepared
            else end == s
  {
    var s1 := Step(s, Begin(Prepare));
    assert ([Begin(Prepare)] + es)[1..] == es;
    if s1.worker.Looping? {
      assert BlockedFrom(s.stored.branches, s.held, 0) == M.Blocked(s.stored.branches, s.held);
      TryRuns(s1, es, M.Blocked(s.stored.branches, s.held), |s.log|);
    } else if s1.worker.Persisting? {
      TryRuns(s1, es, false, |s.log|);
    } else {
      StaysIdle(s1, es);
    }
  }

  // ---------------------------------------------------------------------
  // Commit and undo

  /** From branch k on, the pass comes to a branch that it has to call and that names no URL. */
  predicate Gap(pass: Pass, tx: Transaction, k: nat, held: set<Key>)
    decreases |tx.branches| - k
  {
    k < |tx.branches| &&
    var key := KeyAt(pass, tx, k);
    if Calls(tx.branches[k], Decide(held, key))
    then CallUrl(tx.kind, pass, tx.branches[k]).None? || Gap(pass, tx, k + 1, held + {key})
    else Gap(pass, tx, k + 1, Hold(held, key))
  }

  /** The pass has to call branch i: its barrier is free and no branch before has the same id; and a TCC
      cancel is called only after a try, or when the try was executed by others. */
  predicate HasToCall(pass: Pass, tx: Transaction, held: set<Key>, k: nat, i: nat)
    requires i < |tx.branches|
  {
    && KeyAt(pass, tx, i) !in held
    && (forall j :: k <= j < i ==> tx.branches[j].id != tx.branches[i].id)
    && (pass.Undoing? && tx.kind.Tcc? ==> Key(tx.branches[i].id, Try) in held || tx.branches[i].action == "")
  }

  predicate NoUrl(pass: Pass, tx: Transaction, held: set<Key>, k: nat, i: nat) {
    i < |tx.branches| && HasToCall(pass, tx, held, k, i) && Nameless(pass, tx.kind, tx.branches[i])
  }

  /** The branch names no URL for the decision; TCC undoes with compensate where cancel is missing. */
  predicate Nameless(pass: Pass, kind: TransactionKind, b: Branch) {
    match pass
    case Trying => false
    case Committing => b.confirm.None?
    case Undoing => b.cancel.None? && (kind.Tcc? ==> b.compensate.None?)
  }

  lemma NoUrlLater(pass: Pass, tx: Transaction, k: nat, held: set<Key>, i: nat)
    requires !pass.Trying? && k < i < |tx.branches|
    ensures NoUrl(pass, tx, held, k, i) == NoUrl(pass, tx, held + {KeyAt(pass, tx, k)}, k + 1, i)
  {
  }

  lemma {:induction false} GapMeans(pass: Pass, tx: Transaction, k: nat, held: set<Key>)
    requires !pass.Trying? && k <= |tx.branches|
    ensures Gap(pass, tx, k, held) <==> exists i: nat :: k <= i < |tx.branches| && NoUrl(pass, tx, held, k, i)
    decreases |tx.branches| - k
  {
    if k < |tx.branches| {
      var key := KeyAt(pass, tx, k);
      var next := Hold(held, key);
      GapMeans(pass, tx, k + 1, next);
      assert next == held + {key};
      forall i: nat | k < i < |tx.branches| ensures NoUrl(pass, tx, held, k, i) == NoUrl(pass, tx, next, k + 1, i) {
        NoUrlLater(pass, tx, k, held, i);
      }
      assert NoUrl(pass, tx, held, k, k) <==>
        Calls(tx.branches[k], Decide(held, key)) && CallUrl(tx.kind, pass, tx.branches[k]).None?;
      assert Gap(pass, tx, k, held) <==> NoUrl(pass, tx, held, k, k) || Gap(pass, tx, k + 1, next);
      if Gap(pass, tx, k + 1, next) {
        var i: nat :| k + 1 <= i < |tx.branches| && NoUrl(pass, tx, next, k + 1, i);
        assert NoUrl(pass, tx, held, k, i);
      }
    }
  }

  lemma {:induction false} GapSame(pass: Pass, a: Transaction, b: Transaction, k: nat, held: set<Key>)
    requires |a.branches| == |b.branches| && a.kind == b.kind
    requires forall i: nat :: k <= i < |a.branches| ==> a.branches[i] == b.branches[i]
    ensures Gap(pass, a, k, held) == Gap(pass, b, k, held)
    decreases |a.branches| - k
  {
    if k < |a.branches| {
      GapSame(pass, a, b, k + 1, Hold(held, KeyAt(pass, a, k)));
      GapSame(pass, a, b, k + 1, held + {KeyAt(pass, a, k)});
    }
  }

  function Final(pass: Pass): TransactionStatus { if pass.Committing? then TransactionStatus.Succeeded else Aborted }

  predicate PassFits(s: State, pass: Pass, was: Transaction, gap: bool) {
    match s.worker
    case Idle => if gap then s.stored == was else s.stored.status == Final(pass)
    case Persisting(tx) => !gap && tx.status == Final(pass)
    case Looping(p, tx, k) => p == pass && s.stored == was && Gap(pass, tx, k, s.held) == gap
    case Calling(p, tx, k, call) =>
      && p == pass && s.stored == was && k < |tx.branches| && call != Replied(false)
      && Gap(pass, tx, k + 1, s.held) == gap
  }

  lemma PassAdvance(s: State, pass: Pass, tx: Transaction, k: nat, was: Transaction, gap: bool)
    requires s.worker == Looping(pass, tx, k) && PassFits(s, pass, was, gap) && k < |tx.branches| && !pass.Trying?
    ensures PassFits(AdvanceLoop(s, pass, tx, k), pass, was, gap)
  {
    var s' := AdvanceLoop(s, pass, tx, k);
    if s'.worker.Calling? || s'.worker.Looping? { GapSame(pass, tx, s'.worker.tx, k + 1, s'.held); }
  }

  lemma PassStep(s: State, e: Event, pass: Pass, was: Transaction, gap: bool, from: nat)
    requires PassFits(s, pass, was, gap) && !pass.Trying?
    requires QuietEvent(e) && from <= |s.log| && NoFailure(Step(s, e).log, from)
    ensures PassFits(Step(s, e), pass, was, gap)
  {
    match s.worker
    case Looping(p, tx, k) => if e.Advance? && k < |tx.branches| { PassAdvance(s, pass, tx, k, was, gap); }
    case Calling(p, tx, k, call) => PassCall(s, e, pass, was, gap, from);
    case _ =>
  }

  lemma PassCall(s: State, e: Event, pass: Pass, was: Transaction, gap: bool, from: nat)
    requires PassFits(s, pass, was, gap) && !pass.Trying? && s.worker.Calling?
    requires QuietEvent(e) && from <= |s.log| && NoFailure(Step(s, e).log, from)
    ensures PassFits(Step(s, e), pass, was, gap)
  {
    var s', tx, k := Step(s, e), s.worker.tx, s.worker.k;
    if e.Advance? && s'.worker.Looping? { GapSame(pass, tx, s'.worker.tx, k + 1, s.held); }
    if e.Answer? && s.worker.call == Open { assert s'.log[|s.log|].ok; }
  }

  lemma {:induction false} PassRuns(s: State, es: seq<Event>, pass: Pass, was: Transaction, gap: bool, from: nat)
    requires PassFits(s, pass, was, gap) && !pass.Trying?
    requires Quiet(es) && from <= |s.log| && NoFailure(Exec(s, es).log, from)
    ensures PassFits(Exec(s, es), pass, was, gap)
    decreases |es|
  {
    if es != [] {
      var s' := Step(s, es[0]);
      LogGrows(s', es[1..]);
      NoFailureBefore(s'.log, Exec(s, es).log, from);
      assert QuietEvent(es[0]);
      PassStep(s, es[0], pass, was, gap, from);
      PassRuns(s', es[1..], pass, was, gap, from);
    }
  }

  /** A commit pass that has ended, undisturbed and with no call answered with failure, leaves Succeeded,
      unless it came to a branch that it has to call and that names no URL; then the record stays as it
      was. Before Prepared and after an abort it changes nothing. */
  lemma CompletePassResult(s: State, es: seq<Event>)
    requires s.worker.Idle? && Quiet(es)
    requires var end := Exec(s, [Begin(Request.Complete)] + es); end.worker.Idle? && NoFailure(end.log, |s.log|)
    ensures var end := Exec(s, [Begin(Request.Complete)] + es);
            if (s.stored.status.Prepared? || s.stored.status.Succeeding?)
               && !exists i: nat :: NoUrl(Committing, s.stored, s.held, 0, i)
            then end.stored.status.Succeeded?
            else end.stored == s.stored
  {
    var s1 := Step(s, Begin(Request.Complete));
    assert ([Begin(Request.Complete)] + es)[1..] == es;
    if s1.worker.Looping? {
      GapBegins(s.stored, s1.worker.tx, Committing, s.held);
      PassRuns(s1, es, Committing, s.stored, Gap(Committing, s1.worker.tx, 0, s.held), |s.log|);
    } else {
      StaysIdle(s1, es);
    }
  }

  lemma GapBegins(a: Transaction, b: Transaction, pass: Pass, held: set<Key>)
    requires a.branches == b.branches && a.kind == b.kind && !pass.Trying?
    ensures Gap(pass, b, 0, held) <==> exists i: nat :: NoUrl(pass, a, held, 0, i)
  {
    GapSame(pass, a, b, 0, held);
    GapMeans(pass, a, 0, held);
  }

  /** The same for an undo pass, which leaves Aborted, from any status that is open or Aborting. */
  lemma UndoPassResult(s: State, es: seq<Event>)
    requires s.worker.Idle? && Quiet(es)
    requires var end := Exec(s, [Begin(Undo)] + es); end.worker.Idle? && NoFailure(end.log, |s.log|)
    ensures var end, status := Exec(s, [Begin(Undo)] + es), s.stored.status;
            if (status.Submitted? || (status.Trying? && s.stored.kind.Tcc?) || status.Prepared? || status.Aborting?)
               && !exists i: nat :: NoUrl(Undoing, s.stored, s.held, 0, i)
            then end.stored.status.Aborted?
            else end.stored == s.stored
  {
    var s1 := Step(s, Begin(Undo));
    assert ([Begin(Undo)] + es)[1..] == es;
    if s1.worker.Looping? {
      GapBegins(s.stored, s1.worker.tx, Undoing, s.held);
      PassRuns(s1, es, Undoing, s.stored, Gap(Undoing, s1.worker.tx, 0, s.held), |s.log|);
    } else {
      StaysIdle(s1, es);
    }
  }

  // ---------------------------------------------------------------------
  // What a pass makes of its branches

  function OneMore(n: nat): nat { if n < MAX_U32 then n + 1 else n }

  /** The branch after the pass dealt with it: done, one attempt later if it was called. */
  function Handled(pass: Pass, start: Transaction, held: set<Key>, i: nat): Branch
    requires i < |start.branches|
  {
    var b := start.branches[i];
    match pass
    case Trying =>
      if b.status.Succeeded? then b
      else b.(status := BranchStatus.Succeeded, attempts := OneMore(b.attempts), nextRetry := None)
    case Committing => b.(status := BranchStatus.Succeeded, attempts := OneMore(b.attempts), nextRetry := None)
    case Undoing =>
      var called := start.kind.Tcc? ==> Key(b.id, Try) in held || b.action == "";
      b.(status := BranchStatus.Skipped, attempts := if called then OneMore(b.attempts) else b.attempts, nextRetry := None)
  }

  /** A try pass goes past what has succeeded. */
  predicate GoesPast(pass: Pass, b: Branch) { pass.Trying? && b.status.Succeeded? }

  /** The pass deals with branch i itself: its barrier is free, and no branch before takes it. */
  predicate Own(pass: Pass, start: Transaction, held: set<Key>, i: nat) {
    && i < |start.branches| && KeyAt(pass, start, i) !in held
    && forall j :: 0 <= j < i && start.branches[j].id == start.branches[i].id ==> GoesPast(pass, start.branches[j])
  }

  function Expected(pass: Pass, start: Transaction, held: set<Key>, i: nat): Branch
    requires i < |start.branches|
  {
    if Own(pass, start, held, i) then Handled(pass, start, held, i) else start.branches[i]
  }

  /** Below k everything is dealt with, and from `from` on the branches are as they were. */
  predicate Marked(pass: Pass, start: Transaction, held: set<Key>, tx: Transaction, k: nat, from: nat) {
    && |tx.branches| == |start.branches| && tx.kind == start.kind
    && (forall i: nat :: i < k && i < |tx.branches| ==> tx.branches[i] == Expected(pass, start, held, i))
    && forall i: nat :: from <= i < |tx.branches| ==> tx.branches[i] == start.branches[i]
  }

  predicate TakesBarrier(pass: Pass, start: Transaction, k: nat, j: nat, key: Key) {
    j < k && j < |start.branches| && !GoesPast(pass, start.branches[j]) && KeyAt(pass, start, j) == key
  }

  /** Exactly the barriers of branches below k were taken. */
  ghost predicate TookBelow(pass: Pass, start: Transaction, held: set<Key>, now: set<Key>, k: nat) {
    forall key :: key in now <==> key in held || Taken(pass, start, k, key)
  }

  predicate Taken(pass: Pass, start: Transaction, k: nat, key: Key) {
    exists j: nat :: j < k && TakesBarrier(pass, start, k, j, key)
  }

  lemma TakenNext(pass: Pass, start: Transaction, k: nat, key: Key)
    requires k < |start.branches|
    ensures Taken(pass, start, k + 1, key) <==>
              Taken(pass, start, k, key) || (!GoesPast(pass, start.branches[k]) && KeyAt(pass, start, k) == key)
  {
    if Taken(pass, start, k, key) {
      var j: nat :| j < k && TakesBarrier(pass, start, k, j, key);
      assert TakesBarrier(pass, start, k + 1, j, key);
    }
    if Taken(pass, start, k + 1, key) {
      var j: nat :| j < k + 1 && TakesBarrier(pass, start, k + 1, j, key);
      if j < k { assert TakesBarrier(pass, start, k, j, key); }
    }
    if !GoesPast(pass, start.branches[k]) && KeyAt(pass, start, k) == key {
      assert TakesBarrier(pass, start, k + 1, k, key);
    }
  }

  /** A turned-away try. */
  predicate TurnedAway(start: Transaction, held: set<Key>, tx: Transaction) {
    exists i: nat :: i < |tx.branches| == |start.branches| && M.BlockedAt(start.branches, held, i)
                     && tx.branches[i] == start.branches[i].(status := BranchStatus.Skipped, nextRetry := None)
  }

  predicate Marks(pass: Pass, start: Transaction, held: set<Key>, tx: Transaction) {
    && (tx.status == Finished(pass) ==> Marked(pass, start, held, tx, |tx.branches|, |tx.branches|))
    && (pass.Trying? && tx.status.Aborting? ==> TurnedAway(start, held, tx))
  }

  ghost predicate MarkFits(s: State, pass: Pass, start: Transaction, held: set<Key>) {
    match s.worker
    case Idle => s.stored == start || Marks(pass, start, held, s.stored)
    case Persisting(tx) => Marks(pass, start, held, tx)
    case Looping(p, tx, k) =>
      && p == pass && s.stored == start && Marked(pass, start, held, tx, k, k) && TookBelow(pass, start, held, s.held, k)
    case Calling(p, tx, k, call) =>
      && p == pass && s.stored == start && k < |tx.branches| && call != Replied(false)
      && Marked(pass, start, held, tx, k, k + 1) && TookBelow(pass, start, held, s.held, k + 1)
      && Put(tx, k, Expected(pass, start, held, k).status, None).branches[k] == Expected(pass, start, held, k)
      && Expected(pass, start, held, k).status == (if pass.Undoing? then BranchStatus.Skipped else BranchStatus.Succeeded)
  }

  lemma OwnMeansFree(pass: Pass, start: Transaction, held: set<Key>, now: set<Key>, k: nat)
    requires TookBelow(pass, start, held, now, k) && k < |start.branches|
    ensures Own(pass, start, held, k) <==> KeyAt(pass, start, k) !in now
  {
    var key := KeyAt(pass, start, k);
    if Own(pass, start, held, k) {
      assert !Taken(pass, start, k, key);
    } else if key !in held {
      var j :| 0 <= j < k && start.branches[j].id == start.branches[k].id && !GoesPast(pass, start.branches[j]);
      assert TakesBarrier(pass, start, k, j, key);
    }
  }

  lemma TakesOne(pass: Pass, start: Transaction, held: set<Key>, now: set<Key>, k: nat)
    requires TookBelow(pass, start, held, now, k) && k < |start.branches|
    ensures GoesPast(pass, start.branches[k]) ==> TookBelow(pass, start, held, now, k + 1)
    ensures !GoesPast(pass, start.branches[k]) ==> TookBelow(pass, start, held, now + {KeyAt(pass, start, k)}, k + 1)
  {
    forall key ensures Taken(pass, start, k + 1, key) <==>
        Taken(pass, start, k, key) || (!GoesPast(pass, start.branches[k]) && KeyAt(pass, start, k) == key) {
      TakenNext(pass, start, k, key);
    }
  }

  /** A try barrier is not taken by undo passes, nor a cancel barrier by tries. */
  lemma OtherBarriers(pass: Pass, start: Transaction, held: set<Key>, now: set<Key>, k: nat, key: Key)
    requires TookBelow(pass, start, held, now, k) && key.op != OpOf(start.kind, pass)
    ensures key in now <==> key in held
  {
  }

  lemma MarkedNext(pass: Pass, start: Transaction, held: set<Key>, tx: Transaction, next: Transaction, k: nat)
    requires Marked(pass, start, held, tx, k, k) && k < |tx.branches|
    requires next.kind == tx.kind && |next.branches| == |tx.branches| && next.branches == tx.branches[k := next.branches[k]]
    requires next.branches[k] == Expected(pass, start, held, k)
    ensures Marked(pass, start, held, next, k + 1, k + 1)
  {
  }

  lemma MarkLoops(s: State, pass: Pass, start: Transaction, held: set<Key>, tx: Transaction, k: nat)
    requires MarkFits(s, pass, start, held) && s.worker == Looping(pass, tx, k) && k < |tx.branches|
    requires AdvanceLoop(s, pass, tx, k).worker.Looping?
    ensures MarkFits(AdvanceLoop(s, pass, tx, k), pass, start, held)
  {
    var s' := AdvanceLoop(s, pass, tx, k);
    var key := KeyAt(pass, start, k);
    assert KeyAt(pass, tx, k) == key;
    TakesOne(pass, start, held, s.held, k);
    OwnMeansFree(pass, start, held, s.held, k);
    OtherBarriers(pass, start, held, s.held, k, Key(start.branches[k].id, if pass.Trying? then Cancel else Try));
    if key in s.held { assert s.held + {key} == s.held; }
    assert s'.worker.tx.branches == tx.branches[k := s'.worker.tx.branches[k]];
    MarkedNext(pass, start, held, tx, s'.worker.tx, k);
  }

  lemma MarkClaims(s: State, pass: Pass, start: Transaction, held: set<Key>, tx: Transaction, k: nat)
    requires MarkFits(s, pass, start, held) && s.worker == Looping(pass, tx, k) && k < |tx.branches|
    requires AdvanceLoop(s, pass, tx, k).worker.Calling?
    ensures MarkFits(AdvanceLoop(s, pass, tx, k), pass, start, held)
  {
    assert KeyAt(pass, tx, k) == KeyAt(pass, start, k);
    TakesOne(pass, start, held, s.held, k);
    OwnMeansFree(pass, start, held, s.held, k);
    OtherBarriers(pass, start, held, s.held, k, Key(start.branches[k].id, if pass.Trying? then Cancel else Try));
  }

  lemma TurnedAwayThere(s: State, pass: Pass, start: Transaction, held: set<Key>, tx: Transaction, k: nat)
    requires MarkFits(s, pass, start, held) && s.worker == Looping(pass, tx, k) && k < |tx.branches|
    requires Decide(s.held, KeyAt(pass, tx, k)) == SkipCancelledTry && !tx.branches[k].status.Succeeded?
    ensures TurnedAway(start, held, Put(tx, k, BranchStatus.Skipped, None).(status := Aborting))
  {
    OtherBarriers(pass, start, held, s.held, k, Key(start.branches[k].id, Cancel));
    assert Key(start.branches[k].id, Try) !in held;
    assert M.BlockedAt(start.branches, held, k);
    var t := Put(tx, k, BranchStatus.Skipped, None).(status := Aborting);
    assert t.branches[k].status.Skipped?;
  }

  lemma MarkAdvance(s: State, pass: Pass, start: Transaction, held: set<Key>, tx: Transaction, k: nat)
    requires MarkFits(s, pass, start, held) && s.worker == Looping(pass, tx, k) && k < |tx.branches|
    ensures MarkFits(AdvanceLoop(s, pass, tx, k), pass, start, held)
  {
    match AdvanceLoop(s, pass, tx, k).worker
    case Looping(_, _, _) => MarkLoops(s, pass, start, held, tx, k);
    case Calling(_, _, _, _) => MarkClaims(s, pass, start, held, tx, k);
    case Persisting(_) => TurnedAwayThere(s, pass, start, held, tx, k);
    case Idle =>
  }

  lemma MarkCall(s: State, e: Event, pass: Pass, start: Transaction, held: set<Key>, from: nat)
    requires MarkFits(s, pass, start, held) && s.worker.Calling?
    requires QuietEvent(e) && from <= |s.log| && NoFailure(Step(s, e).log, from)
    ensures MarkFits(Step(s, e), pass, start, held)
  {
    var s' := Step(s, e);
    if e.Answer? && s.worker.call == Open { assert s'.log[|s.log|].ok; }
  }

  lemma MarkStep(s: State, e: Event, pass: Pass, start: Transaction, held: set<Key>, from: nat)
    requires MarkFits(s, pass, start, held)
    requires QuietEvent(e) && from <= |s.log| && NoFailure(Step(s, e).log, from)
    ensures MarkFits(Step(s, e), pass, start, held)
  {
    match s.worker
    case Looping(p, tx, k) => if e.Advance? && k < |tx.branches| { MarkAdvance(s, pass, start, held, tx, k); }
    case Calling(_, _, _, _) => MarkCall(s, e, pass, start, held, from);
    case _ =>
  }

  lemma {:induction false} MarkRuns(s: State, es: seq<Event>, pass: Pass, start: Transaction, held: set<Key>, from: nat)
    requires MarkFits(s, pass, start, held)
    requires Quiet(es) && from <= |s.log| && NoFailure(Exec(s, es).log, from)
    ensures MarkFits(Exec(s, es), pass, start, held)
    decreases |es|
  {
    if es != [] {
      var s' := Step(s, es[0]);
      LogGrows(s', es[1..]);
      NoFailureBefore(s'.log, Exec(s, es).log, from);
      assert QuietEvent(es[0]);
      MarkStep(s, es[0], pass, start, held, from);
      MarkRuns(s', es[1..], pass, start, held, from);
    }
  }

  /** The branches that a pass leaves which ended undisturbed, with no call answered with failure, and stored
      its final status: every branch that it dealt with itself is done, and every other branch is as it
      was. A prepare pass that turned back shows a branch cancelled before its try as Skipped. */
  lemma PassMarks(s: State, pass: Pass, es: seq<Event>)
    requires s.worker.Idle? && Quiet(es)
    requires Step(s, Begin(RequestOf(pass))).worker.Looping?
    requires var end := Exec(s, [Begin(RequestOf(pass))] + es); end.worker.Idle? && NoFailure(end.log, |s.log|)
    ensures var end := Exec(s, [Begin(RequestOf(pass))] + es).stored;
            && (end != s.stored && end.status == Finished(pass) ==>
                  && |end.branches| == |s.stored.branches|
                  && forall i: nat :: i < |end.branches| ==> end.branches[i] == Expected(pass, s.stored, s.held, i))
            && (end != s.stored && pass.Trying? && end.status.Aborting? ==> TurnedAway(s.stored, s.held, end))
  {
    assert ([Begin(RequestOf(pass))] + es)[1..] == es;
    MarkRuns(Step(s, Begin(RequestOf(pass))), es, pass, s.stored, s.held, |s.log|);
  }

  function RequestOf(pass: Pass): Request {
    match pass
    case Trying => Prepare
    case Committing => Request.Complete
    case Undoing => Undo
  }

  // ---------------------------------------------------------------------
  // A call that fails

  /** The pass has stored the failure of branch i, or is about to. */
  predicate FailedOn(s: State, tx: Transaction, pass: Pass, i: nat, spent: bool) {
    && i < |tx.branches| && KeyAt(pass, tx, i) !in s.held
    && tx.branches[i].status.Failed? && tx.branches[i].nextRetry.Some?
    && tx.status == match pass
                    case Trying => if spent then Aborting else TransactionStatus.Trying
                    case Committing => Succeeding
                    case Undoing => Aborting
  }

  predicate Fails(s: State, pass: Pass, i: nat, spent: bool) {
    match s.worker
    case Idle => FailedOn(s, s.stored, pass, i, spent)
    case Persisting(tx) => FailedOn(s, tx, pass, i, spent)
    case Calling(p, tx, k, call) =>
      && p == pass && k == i < |tx.branches| && call == Replied(false)
      && tx.status == (match pass
                       case Trying => TransactionStatus.Trying
                       case Committing => Succeeding
                       case Undoing => Aborting)
      && (spent <==> tx.branches[i].attempts >= MaxAttempts(s, tx.options))
    case _ => false
  }

  lemma {:induction false} FailureRuns(s: State, es: seq<Event>, pass: Pass, i: nat, spent: bool)
    requires Fails(s, pass, i, spent) && Quiet(es)
    ensures Fails(Exec(s, es), pass, i, spent)
    decreases |es|
  {
    if es != [] {
      assert QuietEvent(es[0]);
      FailureRuns(Step(s, es[0]), es[1..], pass, i, spent);
    }
  }

  /** A call that fails ends its pass: the branch is stored as Failed with its retry time, its barrier is
      free, and the status stays the one of the pass; but a try with no attempt left stores Aborting. */
  lemma FailedCallWaits(s: State, es: seq<Event>)
    requires CallAt(s.worker, Open) && s.worker.tx.status == (match s.worker.pass
                                                              case Trying => TransactionStatus.Trying
                                                              case Committing => Succeeding
                                                              case Undoing => Aborting)
    requires s.worker.tx.options.retryLimit.Some? ==> s.worker.tx.options.retryLimit.value <= MAX_U32
    requires Quiet(es) && Exec(s, [Answer(false)] + es).worker.Idle?
    ensures var wk, end := s.worker, Exec(s, [Answer(false)] + es);
            var spent := wk.tx.branches[wk.k].attempts >= Allowed(wk.tx.options, s.defaultAttempts);
            FailedOn(end, end.stored, wk.pass, wk.k, spent)
  {
    assert ([Answer(false)] + es)[1..] == es;
    var wk := s.worker;
    var spent := wk.tx.branches[wk.k].attempts >= Allowed(wk.tx.options, s.defaultAttempts);
    FailureRuns(Step(s, Answer(false)), es, wk.pass, wk.k, spent);
  }

  // ---------------------------------------------------------------------
  // Every pass ends

  predicate Live(wk: Worker) {
    match wk
    case Looping(_, tx, k) => k <= |tx.branches|
    case Calling(_, tx, k, call) => k < |tx.branches| && call != Replied(false)
    case _ => true
  }

  function CallLeft(call: Call): nat { if call == Spawned then 2 else if call == Open then 1 else 0 }

  /** An upper bound for the steps that are left. */
  function StepsLeft(wk: Worker): int {
    match wk
    case Idle => 0
    case Persisting(_) => 1
    case Looping(_, tx, k) => 4 * (|tx.branches| - k) + 2
    case Calling(_, tx, k, call) => 4 * (|tx.branches| - k) - 1 + CallLeft(call)
  }

  function NextEvent(wk: Worker): Event {
    match wk
    case Persisting(_) => Persist(0)
    case Calling(_, _, _, Spawned) => Issue(0)
    case Calling(_, _, _, Open) => Answer(true)
    case _ => Advance(0)
  }

  lemma NextEventHelps(s: State)
    requires Live(s.worker) && !s.worker.Idle?
    ensures var s' := Step(s, NextEvent(s.worker));
            Live(s'.worker) && 0 <= StepsLeft(s'.worker) < StepsLeft(s.worker) && NoFailure(s'.log, |s.log|)
  {
  }

  /** Whatever point a pass is at, unless a call has just failed, it can be run to its end with every call
      answered with success. */
  lemma {:induction false} PassEnds(s: State) returns (es: seq<Event>)
    requires Live(s.worker)
    ensures Quiet(es) && Exec(s, es).worker.Idle? && NoFailure(Exec(s, es).log, |s.log|)
    decreases StepsLeft(s.worker)
  {
    if s.worker.Idle? {
      es := [];
    } else {
      var e := NextEvent(s.worker);
      NextEventHelps(s);
      var s' := Step(s, e);
      var rest := PassEnds(s');
      es := [e] + rest;
      assert es[1..] == rest;
      LogGrows(s', rest);
      var log := Exec(s, es).log;
      forall p | |s.log| <= p < |log| && log[p].Answered? ensures log[p].ok {
        if p < |s'.log| { assert log[p] == s'.log[p]; }
      }
    }
  }
}
