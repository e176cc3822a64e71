/** Exactly which requests can end in a transaction that is both committed and undone. A pass that calls
    before its decision is stored, and stops, leaves the record open to the other decision: at Prepared
    always, since another branch can still be registered; before Prepared unless the undo pass leaves a
    branch whose try it turns away for good. */
module TwoPhaseMixing {
  import opened Core
  import opened Edits
  import opened TwoPhase
  import opened Safety = TwoPhaseSafety
  import opened TwoPhaseDecisions

  // ---------------------------------------------------------------------
  // The condition on a request

  /** Branch i was cancelled before its try, so that no try pass gets to Prepared. */
  predicate BlockedAt(bs: seq<Branch>, held: set<Key>, i: nat) {
    i < |bs| && !bs[i].status.Succeeded? && Key(bs[i].id, Cancel) in held && Key(bs[i].id, Try) !in held
  }

  predicate Blocked(bs: seq<Branch>, held: set<Key>) {
    exists i: nat :: i < |bs| && BlockedAt(bs, held, i)
  }

  /** The request calls before its decision is stored, and leaves the way to the other decision open. */
  predicate MayMix(s: State, request: Request) {
    !Safe(s, request) &&
    (s.stored.kind.Tcc? && !s.stored.status.Prepared? ==>
      !Blocked(s.stored.branches, HeldAtCall(Undoing, s.stored.(status := Aborting), 0, s.held)))
  }

  ghost predicate NeverMayMix(s: State, es: seq<Event>)
    decreases |es|
  {
    es != [] ==>
      && (Asked(s, es[0]).Some? ==> !MayMix(s, Asked(s, es[0]).value))
      && NeverMayMix(Step(s, es[0]), es[1..])
  }

  // ---------------------------------------------------------------------
  // The invariant

  predicate NoCommit(log: seq<LogEvent>) { forall p :: 0 <= p < |log| ==> !IsCommit(log[p]) }
  predicate NoUndo(log: seq<LogEvent>) { forall p :: 0 <= p < |log| ==> !IsUndo(log[p]) }

  /** What a record may say about the calls made. */
  predicate RecordFits(log: seq<LogEvent>, tx: Transaction, held: set<Key>) {
    && (NoCommit(log) || NoUndo(log))
    && (tx.status.Prepared? || CommitStatus(tx.status) ==> NoUndo(log))
    && (Undecided(tx.status) || AbortStatus(tx.status) ==> NoCommit(log))
    && (Starting(tx) ==> NoUndo(log) || (tx.kind.Tcc? && Blocked(tx.branches, held)))
  }

  predicate Starting(tx: Transaction) { tx.status.Submitted? || tx.status.Trying? }

  /** The barriers that stay if the current undo call fails. */
  function Settled(s: State): set<Key> {
    if s.worker.Calling? && s.worker.k < |s.worker.tx.branches| && s.worker.pass.Undoing?
    then s.held - {CurrentKey(s.worker)} else s.held
  }

  predicate LoopFits(s: State, pass: Pass, tx: Transaction, k: nat) {
    match pass
    case Trying => NoUndo(s.log) || exists i: nat :: k <= i < |tx.branches| && BlockedAt(tx.branches, s.held, i)
    case Committing => s.stored.status.Succeeding? || !WouldCall(pass, tx, k, s.held)
    case Undoing =>
      || s.stored.status.Aborting? || !WouldCall(pass, tx, k, s.held)
      || (s.stored.kind.Tcc? && Starting(s.stored) && Blocked(s.stored.branches, HeldAtCall(pass, tx, k, s.held)))
  }

  predicate CallFits(s: State, pass: Pass, tx: Transaction, k: nat) {
    match pass
    case Trying => NoUndo(s.log) || exists i: nat :: k < i < |tx.branches| && BlockedAt(tx.branches, s.held, i)
    case Committing => s.stored.status.Succeeding?
    case Undoing =>
      || s.stored.status.Aborting?
      || (s.stored.kind.Tcc? && Starting(s.stored) && Blocked(s.stored.branches, Settled(s)))
  }

  predicate WorkerFits(s: State) {
    match s.worker
    case Idle => true
    case Persisting(tx) => RecordFits(s.log, tx, s.held)
    case Looping(pass, tx, k) => LoopFits(s, pass, tx, k)
    case Calling(pass, tx, k, call) => CallFits(s, pass, tx, k)
  }

  ghost predicate Unmixed(s: State) { RecordFits(s.log, s.stored, Settled(s)) && WorkerFits(s) }

  predicate Runs(s: State, pass: Pass, tx: Transaction) {
    PassMayRun(s, pass) && tx.status == Safety.Running(pass) && tx.kind == s.stored.kind
  }

  // ---------------------------------------------------------------------
  // Steps

  lemma BlockedMore(bs: seq<Branch>, held: set<Key>, more: set<Key>)
    requires Blocked(bs, held) && held <= more && forall key :: key in more && key !in held ==> key.op != Try
    ensures Blocked(bs, more)
  {
    var i: nat :| i < |bs| && BlockedAt(bs, held, i);
    assert BlockedAt(bs, more, i);
  }

  /** Only ids and successes matter. */
  lemma BlockedSame(a: seq<Branch>, b: seq<Branch>, held: set<Key>)
    requires Blocked(a, held) && |a| <= |b|
    requires forall i :: 0 <= i < |a| ==> a[i].id == b[i].id && a[i].status == b[i].status
    ensures Blocked(b, held)
  {
    var i: nat :| i < |a| && BlockedAt(a, held, i);
    assert BlockedAt(b, held, i);
  }

  /** Going on to the first call takes undo barriers only. */
  lemma {:induction false} HeldAtCallMore(tx: Transaction, k: nat, held: set<Key>)
    ensures held <= HeldAtCall(Undoing, tx, k, held)
    ensures forall key :: key in HeldAtCall(Undoing, tx, k, held) && key !in held ==> key.op != Try
    decreases |tx.branches| - k
  {
    if k < |tx.branches| { HeldAtCallMore(tx, k + 1, Hold(held, KeyAt(Undoing, tx, k))); }
  }

  lemma SameCalls(log: seq<LogEvent>, e: LogEvent)
    ensures NoCommit(log + [e]) <==> NoCommit(log) && !IsCommit(e)
    ensures NoUndo(log + [e]) <==> NoUndo(log) && !IsUndo(e)
  {
    var more := log + [e];
    assert more[|log|] == e;
    assert forall p :: 0 <= p < |log| ==> more[p] == log[p];
  }

  lemma BeginUnmixed(s: State, request: Request)
    requires s.stored.kind.Tcc? || s.stored.kind.Xa?
    requires Unmixed(s) && s.worker.Idle? && !MayMix(s, request)
    ensures Unmixed(s.(worker := BeginRequest(s.stored, request)))
  {
    var wk := BeginRequest(s.stored, request);
    if wk.Persisting? && Blocked(s.stored.branches, s.held) {
      BlockedSame(s.stored.branches, wk.tx.branches, s.held);
    }
    if wk.Looping? && wk.pass.Trying? && Blocked(s.stored.branches, s.held) {
      var i: nat :| i < |s.stored.branches| && BlockedAt(s.stored.branches, s.held, i);
      assert BlockedAt(wk.tx.branches, s.held, i);
    }
  }

  /** A try that is claimed was not turned away. */
  lemma TryRecord(s: State, tx: Transaction, k: nat)
    requires Runs(s, Pass.Trying, tx) && Unmixed(s) && s.worker == Looping(Pass.Trying, tx, k) && k < |tx.branches|
    ensures var s' := AdvanceLoop(s, Pass.Trying, tx, k); RecordFits(s'.log, s'.stored, Settled(s'))
  {
    var s' := AdvanceLoop(s, Pass.Trying, tx, k);
    if Blocked(s.stored.branches, s.held) {
      var i: nat :| i < |s.stored.branches| && BlockedAt(s.stored.branches, s.held, i);
      assert BlockedAt(s.stored.branches, s'.held, i);
    }
  }

  lemma TryUnmixed(s: State, tx: Transaction, k: nat)
    requires Runs(s, Pass.Trying, tx) && Unmixed(s) && s.worker == Looping(Pass.Trying, tx, k) && k < |tx.branches|
    ensures Unmixed(AdvanceLoop(s, Pass.Trying, tx, k))
  {
    var s' := AdvanceLoop(s, Pass.Trying, tx, k);
    TryRecord(s, tx, k);
    if !NoUndo(s.log) {
      var i: nat :| k <= i < |tx.branches| && BlockedAt(tx.branches, s.held, i);
      if s'.worker.Looping? || s'.worker.Calling? { assert BlockedAt(s'.worker.tx.branches, s'.held, i); }
    }
  }

  lemma CommitUnmixed(s: State, tx: Transaction, k: nat)
    requires Runs(s, Committing, tx) && Unmixed(s) && s.worker == Looping(Committing, tx, k) && k < |tx.branches|
    ensures Unmixed(AdvanceLoop(s, Committing, tx, k))
  {
    var s' := AdvanceLoop(s, Committing, tx, k);
    if s'.worker.Looping? { WouldCallSame(Committing, tx, s'.worker.tx, k + 1, s'.held); }
  }

  /** Whatever an undo pass takes, a branch that is turned away stays so. */
  lemma UndoRecord(s: State, tx: Transaction, k: nat)
    requires Runs(s, Undoing, tx) && Unmixed(s) && s.worker == Looping(Undoing, tx, k) && k < |tx.branches|
    ensures var s' := AdvanceLoop(s, Undoing, tx, k); RecordFits(s'.log, s'.stored, Settled(s'))
  {
    var s' := AdvanceLoop(s, Undoing, tx, k);
    if Blocked(s.stored.branches, s.held) { BlockedMore(s.stored.branches, s.held, Settled(s')); }
  }

  lemma UndoUnmixed(s: State, tx: Transaction, k: nat)
    requires Runs(s, Undoing, tx) && Unmixed(s) && s.worker == Looping(Undoing, tx, k) && k < |tx.branches|
    ensures Unmixed(AdvanceLoop(s, Undoing, tx, k))
  {
    var s', key := AdvanceLoop(s, Undoing, tx, k), KeyAt(Undoing, tx, k);
    UndoRecord(s, tx, k);
    if s'.worker.Looping? {
      WouldCallSame(Undoing, tx, s'.worker.tx, k + 1, s'.held);
      assert s'.held == Hold(s.held, key);
    } else if s'.worker.Calling? {
      assert Settled(s') == s.held;
    }
  }

  lemma FinishUnmixed(s: State, pass: Pass, tx: Transaction, k: nat, ok: bool, retryAt: nat)
    requires Runs(s, pass, tx) && Unmixed(s) && s.worker == Calling(pass, tx, k, Replied(ok)) && k < |tx.branches|
    ensures Unmixed(FinishCall(s, pass, tx, k, ok, retryAt))
  {
    var s' := FinishCall(s, pass, tx, k, ok, retryAt);
    match pass
    case Trying => FinishTry(s, tx, k, ok, retryAt);
    case Committing =>
    case Undoing =>
      if Blocked(s.stored.branches, Settled(s)) {
        BlockedMore(s.stored.branches, Settled(s), s'.held);
        if ok {
          HeldAtCallMore(s'.worker.tx, k + 1, s'.held);
          BlockedMore(s.stored.branches, s'.held, HeldAtCall(pass, s'.worker.tx, k + 1, s'.held));
        }
      }
  }

  lemma FinishTry(s: State, tx: Transaction, k: nat, ok: bool, retryAt: nat)
    requires Runs(s, Pass.Trying, tx) && Unmixed(s) && s.worker == Calling(Pass.Trying, tx, k, Replied(ok)) && k < |tx.branches|
    ensures Unmixed(FinishCall(s, Pass.Trying, tx, k, ok, retryAt))
  {
    var s' := FinishCall(s, Pass.Trying, tx, k, ok, retryAt);
    if !NoUndo(s.log) {
      var i: nat :| k < i < |tx.branches| && BlockedAt(tx.branches, s.held, i);
      assert BlockedAt(s'.worker.tx.branches, s'.held, i);
      var j: nat :| j < |s.stored.branches| && BlockedAt(s.stored.branches, s.held, j);
      assert BlockedAt(s.stored.branches, s'.held, j);
    }
  }

  lemma AdvanceUnmixed(s: State, retryAt: nat)
    requires Inv(s) && Unmixed(s)
    ensures Unmixed(AdvanceStep(s, retryAt))
  {
    match s.worker
    case Looping(pass, tx, k) =>
      if k < |tx.branches| {
        match pass
        case Trying => TryUnmixed(s, tx, k);
        case Committing => CommitUnmixed(s, tx, k);
        case Undoing => UndoUnmixed(s, tx, k);
      }
    case Calling(pass, tx, k, Replied(ok)) => if k < |tx.branches| { FinishUnmixed(s, pass, tx, k, ok, retryAt); }
    case _ =>
  }

  lemma CallUnmixed(s: State, e: LogEvent, call: Call)
    requires s.worker.Calling? && Runs(s, s.worker.pass, s.worker.tx) && s.worker.k < |s.worker.tx.branches| && Unmixed(s)
    requires !e.Stored? && e.op == CurrentKey(s.worker).op
    ensures Unmixed(s.(log := s.log + [e], worker := s.worker.(call := call)))
  {
    SameCalls(s.log, e);
  }

  lemma CrashUnmixed(s: State)
    requires Unmixed(s)
    ensures Unmixed(CrashStep(s))
  {
    if Blocked(s.stored.branches, Settled(s)) { BlockedMore(s.stored.branches, Settled(s), s.held); }
  }

  lemma RegisterUnmixed(s: State, b: Branch, now: nat)
    requires Unmixed(s) && s.worker.Idle?
    ensures Unmixed(s.(stored := Registered(s.stored, b, now)))
  {
    if Blocked(s.stored.branches, s.held) {
      BlockedSame(s.stored.branches, Registered(s.stored, b, now).branches, s.held);
    }
  }

  lemma StepUnmixed(s: State, e: Event)
    requires Inv(s) && Unmixed(s) && (Asked(s, e).Some? ==> !MayMix(s, Asked(s, e).value))
    ensures Unmixed(Step(s, e))
  {
    match e
    case Begin(request) => if s.worker.Idle? { BeginUnmixed(s, request); }
    case Scan(_) =>
    case Recover(request) => if s.worker.Idle? && request in s.scans { BeginUnmixed(s, request); }
    case Register(b, now) => if s.worker.Idle? { RegisterUnmixed(s, b, now); }
    case Persist(time) => if s.worker.Persisting? { SameCalls(s.log, Stored(s.worker.tx.status)); }
    case Advance(retryAt) => AdvanceUnmixed(s, retryAt);
    case Issue(at) =>
      if CallAt(s.worker, Spawned) {
        var key := CurrentKey(s.worker);
        CallUnmixed(s, Issued(key.op, s.worker.k, key.branch, at), Open);
      }
    case Answer(ok) =>
      if CallAt(s.worker, Open) {
        var key := CurrentKey(s.worker);
        CallUnmixed(s, Answered(key.op, s.worker.k, key.branch, ok), Replied(ok));
      }
    case Crash => CrashUnmixed(s);
  }

  lemma {:induction false} ExecUnmixed(s: State, es: seq<Event>)
    requires Inv(s) && Unmixed(s) && NeverMayMix(s, es)
    ensures Unmixed(Exec(s, es))
    decreases |es|
  {
    if es != [] {
      StepUnmixed(s, es[0]);
      StepKeeps(s, es[0]);
      ExecUnmixed(Step(s, es[0]), es[1..]);
    }
  }

  /** A run in which no request can mix does not call both a commit and an undo, wherever passes stop. */
  lemma NeverMixes(s: State, es: seq<Event>)
    requires Fresh(s) && NeverMayMix(s, es)
    ensures !Mixed(Exec(s, es).log)
  {
    FreshInv(s);
    ExecUnmixed(s, es);
  }

  // ---------------------------------------------------------------------
  // Every other request has a run that mixes

  predicate CallsFor(e: LogEvent, pass: Pass) { if pass.Committing? then IsCommit(e) else IsUndo(e) }

  predicate HasCall(log: seq<LogEvent>, pass: Pass) { exists p :: 0 <= p < |log| && CallsFor(log[p], pass) }

  function RequestOf(pass: Pass): Request { if pass.Committing? then Request.Complete else Undo }

  lemma {:induction false} LogGrows(s: State, es: seq<Event>)
    ensures s.log <= Exec(s, es).log
    decreases |es|
  {
    if es != [] { LogGrows(Step(s, es[0]), es[1..]); }
  }

  lemma CallStays(log: seq<LogEvent>, more: seq<LogEvent>, pass: Pass)
    requires HasCall(log, pass) && log <= more
    ensures HasCall(more, pass)
  {
    var p :| 0 <= p < |log| && CallsFor(log[p], pass);
    assert more[p] == log[p];
  }

  const FAIL_AND_STOP: seq<Event> := [Issue(0), Answer(false), Advance(0), Crash]

  /** A pass calls a branch, the call fails, the barrier is released, and the pass stops. */
  lemma CallsAndStops(s: State) returns (es: seq<Event>)
    requires s.worker.Looping? && !s.worker.pass.Trying? && WouldCall(s.worker.pass, s.worker.tx, s.worker.k, s.held)
    ensures var t := Exec(s, es);
            && t.worker.Idle? && t.stored == s.stored && HasCall(t.log, s.worker.pass)
            && t.held == HeldAtCall(s.worker.pass, s.worker.tx, s.worker.k, s.held)
  {
    var pass := s.worker.pass;
    var reach := ReachesCall(s);
    var t := Exec(s, reach);
    RunFour(t, Issue(0), Answer(false), Advance(0), Crash);
    ExecAppend(s, reach, FAIL_AND_STOP);
    es := reach + FAIL_AND_STOP;
    assert CallsFor(Step(t, Issue(0)).log[|t.log|], pass);
    LogGrows(Step(t, Issue(0)), [Answer(false), Advance(0), Crash]);
    assert FAIL_AND_STOP[1..] == [Answer(false), Advance(0), Crash];
    CallStays(Step(t, Issue(0)).log, Exec(t, FAIL_AND_STOP).log, pass);
  }

  /** A try pass over branches of which none is turned away gets to Prepared. */
  lemma {:induction false} TriesAll(s: State) returns (es: seq<Event>)
    requires s.worker.Looping? && s.worker.pass.Trying? && s.worker.tx.kind.Tcc?
    requires !Blocked(s.worker.tx.branches, s.held) && s.worker.k <= |s.worker.tx.branches|
    ensures var t := Exec(s, es); t.worker.Persisting? && t.worker.tx.status.Prepared? && t.worker.tx.kind.Tcc?
    decreases |s.worker.tx.branches| - s.worker.k
  {
    var tx, k := s.worker.tx, s.worker.k;
    var s1 := Step(s, Advance(0));
    if k == |tx.branches| {
      es := [Advance(0)];
      assert es[1..] == [] && Exec(s1, []) == s1;
    } else if tx.branches[k].status.Succeeded? || KeyAt(Pass.Trying, tx, k) in s.held {
      var rest := TriesAll(s1);
      es := [Advance(0)] + rest;
      assert es[1..] == rest;
    } else {
      assert !BlockedAt(tx.branches, s.held, k);
      TriesOne(s, tx, k);
      RunFour(s, Advance(0), Issue(0), Answer(true), Advance(0));
      var call := [Advance(0), Issue(0), Answer(true), Advance(0)];
      var rest := TriesAll(Exec(s, call));
      es := call + rest;
      ExecAppend(s, call, rest);
    }
  }

  lemma TriesOne(s: State, tx: Transaction, k: nat)
    requires s.worker == Looping(Pass.Trying, tx, k) && tx.kind.Tcc? && k < |tx.branches| && !Blocked(tx.branches, s.held)
    requires !tx.branches[k].status.Succeeded? && Decide(s.held, KeyAt(Pass.Trying, tx, k)) == Execute
    ensures var t := Step(Step(Step(Step(s, Advance(0)), Issue(0)), Answer(true)), Advance(0));
            && t.worker.Looping? && t.worker.pass.Trying? && t.worker.k == k + 1 && t.worker.tx.kind.Tcc?
            && |t.worker.tx.branches| == |tx.branches| && !Blocked(t.worker.tx.branches, t.held)
  {
    var running := tx.(branches := tx.branches[k := StartRunning(tx.branches[k])]);
    var t := Step(Step(Step(Step(s, Advance(0)), Issue(0)), Answer(true)), Advance(0));
    assert t.worker == Looping(Pass.Trying, Put(running, k, BranchStatus.Succeeded, None), k + 1);
    if Blocked(t.worker.tx.branches, t.held) {
      var i: nat :| i < |t.worker.tx.branches| && BlockedAt(t.worker.tx.branches, t.held, i);
      assert BlockedAt(tx.branches, s.held, i);
    }
  }

  // ---------------------------------------------------------------------
  // A branch that is registered late is always called

  lemma {:induction false} LongerThan(names: set<string>) returns (n: nat)
    ensures forall name :: name in names ==> |name| < n
  {
    if names == {} {
      n := 0;
    } else {
      var name :| name in names;
      var m := LongerThan(names - {name});
      n := if m > |name| then m else |name| + 1;
    }
  }

  /** The last branch can be called in a pass, and no barrier of its name is held. */
  predicate LastIsOpen(s: State) {
    && s.worker.Idle? && s.stored.status.Prepared? && |s.stored.branches| > 0
    && var last := s.stored.branches[|s.stored.branches| - 1];
    && last.action == "" && last.confirm.Some? && last.cancel.Some?
    && (forall key :: key in s.held ==> key.branch != last.id)
    && forall i :: 0 <= i < |s.stored.branches| - 1 ==> s.stored.branches[i].id != last.id
  }

  lemma Registers(s: State) returns (b: Branch)
    requires s.worker.Idle? && s.stored.status.Prepared? && (s.stored.kind.Tcc? || s.stored.kind.Xa?)
    ensures LastIsOpen(Step(s, Register(b, 0)))
  {
    var names := (set b | b in s.stored.branches :: b.id) + (set key | key in s.held :: key.branch);
    var n := LongerThan(names);
    var id: string := seq(n, _ => 'a');
    b := Branch(id, TccTry, "", None, Some(""), Some(""), "", BranchStatus.Pending, 0, None, []);
    assert id !in names;
    assert FindBranch(s.stored.branches, id).None? by {
      forall c | c in s.stored.branches ensures c.id != id { assert c.id in names; }
    }
    forall key | key in s.held ensures key.branch != id { assert key.branch in names; }
    forall i | 0 <= i < |s.stored.branches| ensures s.stored.branches[i].id != id { assert s.stored.branches[i].id in names; }
  }

  lemma {:induction false} SkipsHeld(s: State, k: nat) returns (es: seq<Event>)
    requires s.worker.Looping? && !s.worker.pass.Trying? && s.worker.k <= k <= |s.worker.tx.branches|
    requires forall i: nat :: s.worker.k <= i < k ==> KeyAt(s.worker.pass, s.worker.tx, i) in s.held
    ensures Exec(s, es) == s.(worker := Looping(s.worker.pass, s.worker.tx, k))
    decreases k - s.worker.k
  {
    if s.worker.k == k {
      es := [];
    } else {
      var s1 := Step(s, Advance(0));
      assert s1 == s.(worker := Looping(s.worker.pass, s.worker.tx, s.worker.k + 1));
      var rest := SkipsHeld(s1, k);
      es := [Advance(0)] + rest;
      assert es[1..] == rest;
    }
  }

  /** At a barrier that is free a pass calls, or takes it. */
  lemma TakesNext(s: State, pass: Pass, tx: Transaction, k: nat) returns (end: Event)
    requires s.worker == Looping(pass, tx, k) && !pass.Trying? && k < |tx.branches| && KeyAt(pass, tx, k) !in s.held
    ensures var t := Step(Step(s, Advance(0)), end);
            || HasCall(t.log, pass)
            || ((tx.branches[k].action != "" || CallUrl(tx.kind, pass, tx.branches[k]).None?)
                && t.worker.Idle? && t.stored == s.stored && t.held == s.held + {KeyAt(pass, tx, k)})
  {
    var s1 := Step(s, Advance(0));
    end := if s1.worker.Calling? then Issue(0) else Crash;
    if s1.worker.Calling? { assert CallsFor(Step(s1, end).log[|s1.log|], pass); }
  }

  /** One more pass: it calls, or takes the next barrier and stops. */
  lemma NextPass(s: State, pass: Pass, k: nat) returns (es: seq<Event>)
    requires LastIsOpen(s) && !pass.Trying? && k < |s.stored.branches| && KeyAt(pass, s.stored, k) !in s.held
    requires forall i: nat :: i < k ==> KeyAt(pass, s.stored, i) in s.held
    ensures var t := Exec(s, es);
            || HasCall(t.log, pass)
            || (k < |s.stored.branches| - 1 && LastIsOpen(t) && t.stored == s.stored
                && t.held == s.held + {KeyAt(pass, s.stored, k)})
  {
    var s1 := Step(s, Begin(RequestOf(pass)));
    var tx := s1.worker.tx;
    assert s1.worker == Looping(pass, tx, 0) && tx.branches == s.stored.branches && tx.kind == s.stored.kind;
    assert forall i: nat :: i < |tx.branches| ==> KeyAt(pass, tx, i) == KeyAt(pass, s.stored, i);
    var skip := SkipsHeld(s1, k);
    var s2 := Exec(s1, skip);
    var end := TakesNext(s2, pass, tx, k);
    es := [Begin(RequestOf(pass))] + (skip + [Advance(0), end]);
    assert es[1..] == skip + [Advance(0), end];
    ExecAppend(s1, skip, [Advance(0), end]);
    RunTwo(s2, Advance(0), end);
  }

  lemma RunTwo(s: State, a: Event, b: Event)
    ensures Exec(s, [a, b]) == Step(Step(s, a), b)
  {
    var t := Step(Step(s, a), b);
    assert [a, b][1..] == [b] && [b][1..] == [] && Exec(Step(s, a), [b]) == Exec(t, []);
  }

  lemma {:induction false} CallsInTheEnd(s: State, pass: Pass, k: nat) returns (es: seq<Event>)
    requires LastIsOpen(s) && !pass.Trying? && k < |s.stored.branches|
    requires forall i: nat :: i < k ==> KeyAt(pass, s.stored, i) in s.held
    ensures HasCall(Exec(s, es).log, pass)
    decreases |s.stored.branches| - k
  {
    if KeyAt(pass, s.stored, k) in s.held {
      es := CallsInTheEnd(s, pass, k + 1);
    } else {
      es := NextPass(s, pass, k);
      if !HasCall(Exec(s, es).log, pass) {
        var rest := CallsInTheEnd(Exec(s, es), pass, k + 1);
        ExecAppend(s, es, rest);
        es := es + rest;
      }
    }
  }

  /** At Prepared, whatever was called, the other outcome can still be called. */
  lemma OtherOutcome(s: State, pass: Pass) returns (es: seq<Event>)
    requires s.worker.Idle? && s.stored.status.Prepared? && (s.stored.kind.Tcc? || s.stored.kind.Xa?)
    requires !pass.Trying? && HasCall(s.log, pass)
    ensures Mixed(Exec(s, es).log)
  {
    var other := if pass.Committing? then Undoing else Committing;
    var b := Registers(s);
    var rest := CallsInTheEnd(Step(s, Register(b, 0)), other, 0);
    es := [Register(b, 0)] + rest;
    assert es[1..] == rest;
    LogGrows(s, es);
    CallStays(s.log, Exec(s, es).log, pass);
    var log := Exec(s, es).log;
    var p :| 0 <= p < |log| && CallsFor(log[p], pass);
    var q :| 0 <= q < |log| && CallsFor(log[q], other);
  }

  /** After the pass stopped, the record gets to Prepared. */
  lemma GetsPrepared(s: State) returns (es: seq<Event>)
    requires s.worker.Idle? && (s.stored.kind.Tcc? || s.stored.kind.Xa?)
    requires s.stored.status.Prepared? || s.stored.status.Submitted? || (s.stored.status.Trying? && s.stored.kind.Tcc?)
    requires s.stored.kind.Tcc? && !s.stored.status.Prepared? ==> !Blocked(s.stored.branches, s.held)
    ensures var t := Exec(s, es);
            t.worker.Idle? && t.stored.status.Prepared? && (t.stored.kind.Tcc? || t.stored.kind.Xa?)
  {
    if s.stored.status.Prepared? {
      es := [];
    } else {
      var s1 := Step(s, Begin(Prepare));
      var loop: seq<Event> := [];
      if s.stored.kind.Tcc? { loop := TriesAll(s1); } else { assert Exec(s1, []) == s1; }
      var s2 := Exec(s1, loop);
      var s3 := Step(s2, Persist(0));
      es := [Begin(Prepare)] + (loop + [Persist(0)]);
      assert es[1..] == loop + [Persist(0)] && [Persist(0)][1..] == [];
      ExecAppend(s1, loop, [Persist(0)]);
      assert Exec(s2, [Persist(0)]) == Exec(s3, []);
    }
  }

  lemma MixesFrom(s: State, e: Event, request: Request) returns (es: seq<Event>)
    requires s.stored.kind.Tcc? || s.stored.kind.Xa?
    requires Asked(s, e) == Some(request) && MayMix(s, request)
    ensures Mixed(Exec(Step(s, e), es).log)
  {
    var s1 := Step(s, e);
    var pass := s1.worker.pass;
    var call := CallsAndStops(s1);
    var s2 := Exec(s1, call);
    var prepare := GetsPrepared(s2);
    var s3 := Exec(s2, prepare);
    LogGrows(s2, prepare);
    CallStays(s2.log, s3.log, pass);
    var rest := OtherOutcome(s3, pass);
    es := call + (prepare + rest);
    ExecAppend(s1, call, prepare + rest);
    ExecAppend(s2, prepare, rest);
  }

  /** Every request that may mix, by a caller or by recovery, at any point of any run, has a
      continuation that calls both a commit and an undo. */
  lemma MayMixMixes(s: State, run: seq<Event>, e: Event, request: Request) returns (es: seq<Event>)
    requires Fresh(s) && Asked(Exec(s, run), e) == Some(request) && MayMix(Exec(s, run), request)
    ensures Mixed(Exec(s, run + ([e] + es)).log)
  {
    FreshInv(s);
    ExecKeeps(s, run);
    es := MixesFrom(Exec(s, run), e, request);
    ExecAppend(s, run, [e] + es);
    assert ([e] + es)[1..] == es;
  }
}
