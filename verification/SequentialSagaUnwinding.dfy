/** Exactly which abort requests can break the order of compensations. A request is risky when the
    stored status still goes forward, the pass would call a compensation, and a start pass could still
    bring a branch to the point where it is owed a compensation. Runs without risky requests compensate
    in strictly decreasing index order wherever their passes stop; every risky request has a
    continuation that does not. */
module SequentialSagaUnwinding {
  import opened Core
  import opened Edits
  import opened SequentialSaga
  import opened SequentialSagaSafety
  import O = SequentialSagaOrder

  // ---------------------------------------------------------------------
  // The condition on an abort request

  /** Whether a start pass over bs, at branch k, can bring some branch to be owed a compensation that a
      later abort pass would call. */
  predicate Reach(bs: seq<Branch>, k: nat, held: set<Key>)
    decreases |bs| - k
  {
    k < |bs| &&
    if bs[k].status.Succeeded? then Reach(bs, k + 1, held)
    else
      && KeyAt(bs, k, Action) !in held
      && (Callable(bs, k, held) || Reach(bs, k + 1, held + {KeyAt(bs, k, Action)}))
  }

  predicate Callable(bs: seq<Branch>, k: nat, held: set<Key>)
    requires k < |bs|
  {
    bs[k].compensate.Some? && KeyAt(bs, k, Compensate) !in held
  }

  predicate Risky(s: State) {
    && GoesForward(s.stored.status)
    && WouldCall(s.stored.branches, |s.stored.branches|, s.held)
    && Reach(s.stored.branches, 0, s.held)
  }

  /** No abort request that a worker takes up is risky. */
  ghost predicate NoRiskyAbort(s: State, es: seq<Event>)
    decreases |es|
  {
    es != [] ==>
      && (es[0] == Begin(Abort) && s.worker.Idle? ==> !Risky(s))
      && NoRiskyAbort(Step(s, es[0]), es[1..])
  }

  // ---------------------------------------------------------------------
  // The first call of an abort pass

  /** The branch that an abort pass over bs, with k branches left, calls first; -1 if it calls none. */
  function FirstCall(bs: seq<Branch>, k: nat, held: set<Key>): (r: int)
    requires k <= |bs|
    ensures -1 <= r < k
  {
    if k == 0 then -1
    else if !Owed(bs[k - 1]) then FirstCall(bs, k - 1, held)
    else if KeyAt(bs, k - 1, Compensate) in held then -1
    else if bs[k - 1].compensate.Some? then k - 1
    else FirstCall(bs, k - 1, held + {KeyAt(bs, k - 1, Compensate)})
  }

  lemma {:induction false} FirstCallTells(bs: seq<Branch>, k: nat, held: set<Key>)
    requires k <= |bs|
    ensures WouldCall(bs, k, held) <==> FirstCall(bs, k, held) >= 0
  {
    if k > 0 {
      FirstCallTells(bs, k - 1, held);
      FirstCallTells(bs, k - 1, held + {KeyAt(bs, k - 1, Compensate)});
    }
  }

  /** More barriers can only block it. */
  lemma {:induction false} FirstCallMore(bs: seq<Branch>, k: nat, held: set<Key>, more: set<Key>)
    requires k <= |bs| && held <= more
    ensures FirstCall(bs, k, more) == -1 || FirstCall(bs, k, more) == FirstCall(bs, k, held)
  {
    if k > 0 {
      FirstCallMore(bs, k - 1, held, more);
      FirstCallMore(bs, k - 1, held + {KeyAt(bs, k - 1, Compensate)}, more + {KeyAt(bs, k - 1, Compensate)});
    }
  }

  /** Branches that are owed or not alike, with the same ids and compensations. */
  predicate Alike(a: seq<Branch>, b: seq<Branch>, k: nat) {
    k <= |a| && k <= |b| && forall i: nat :: i < k ==>
      (Owed(a[i]) <==> Owed(b[i])) && a[i].id == b[i].id && a[i].compensate == b[i].compensate
  }

  lemma {:induction false} FirstCallSame(a: seq<Branch>, b: seq<Branch>, k: nat, held: set<Key>)
    requires Alike(a, b, k)
    ensures FirstCall(a, k, held) == FirstCall(b, k, held)
  {
    if k > 0 {
      FirstCallSame(a, b, k - 1, held);
      FirstCallSame(a, b, k - 1, held + {KeyAt(a, k - 1, Compensate)});
    }
  }

  lemma {:induction false} FirstCallSkips(bs: seq<Branch>, n: nat, k: nat, held: set<Key>)
    requires k <= n <= |bs| && forall i: nat :: k <= i < n ==> !Owed(bs[i])
    ensures FirstCall(bs, n, held) == FirstCall(bs, k, held)
    decreases n
  {
    if k < n { FirstCallSkips(bs, n - 1, k, held); }
  }

  /** Where some owed branch at k or above exists and all of them hold their barrier, nothing is called. */
  lemma {:induction false} FirstCallBlocked(bs: seq<Branch>, n: nat, k: nat, held: set<Key>)
    requires k <= n <= |bs|
    requires forall i: nat :: k <= i < n && Owed(bs[i]) ==> KeyAt(bs, i, Compensate) in held
    requires exists i: nat :: k <= i < n && Owed(bs[i])
    ensures FirstCall(bs, n, held) == -1
    decreases n
  {
    if !Owed(bs[n - 1]) { FirstCallBlocked(bs, n - 1, k, held); }
  }

  /** What would be called first lies below all that succeeded. */
  ghost predicate Clear(held: set<Key>, log: seq<LogEvent>, bs: seq<Branch>, k: nat)
    requires k <= |bs|
  {
    FirstCall(bs, k, held) >= 0 ==> O.ClearBelow(log, FirstCall(bs, k, held) + 1)
  }

  // ---------------------------------------------------------------------
  // What a start pass can reach

  lemma {:induction false} ReachLess(bs: seq<Branch>, k: nat, held: set<Key>, more: set<Key>)
    requires held <= more && Reach(bs, k, more)
    ensures Reach(bs, k, held)
    decreases |bs| - k
  {
    if bs[k].status.Succeeded? {
      ReachLess(bs, k + 1, held, more);
    } else if !Callable(bs, k, more) {
      ReachLess(bs, k + 1, held + {KeyAt(bs, k, Action)}, more + {KeyAt(bs, k, Action)});
    }
  }

  /** Equal in what a start pass looks at. */
  predicate Mirrors(a: seq<Branch>, b: seq<Branch>) {
    |a| == |b| && forall i: nat :: i < |a| ==>
      (a[i].status.Succeeded? <==> b[i].status.Succeeded?) && a[i].id == b[i].id && a[i].compensate == b[i].compensate
  }

  lemma {:induction false} ReachSame(a: seq<Branch>, b: seq<Branch>, k: nat, held: set<Key>)
    requires |a| == |b| && forall i: nat :: k <= i < |a| ==>
               (a[i].status.Succeeded? <==> b[i].status.Succeeded?) && a[i].id == b[i].id && a[i].compensate == b[i].compensate
    ensures Reach(a, k, held) == Reach(b, k, held)
    decreases |a| - k
  {
    if k < |a| {
      ReachSame(a, b, k + 1, held);
      ReachSame(a, b, k + 1, held + {KeyAt(a, k, Action)});
    }
  }

  lemma {:induction false} ReachDone(bs: seq<Branch>, k: nat, held: set<Key>)
    requires k <= |bs| && DoneBelow(bs, k)
    ensures Reach(bs, 0, held) == Reach(bs, k, held)
    decreases k
  {
    if k > 0 {
      ReachDone(bs, k - 1, held);
      assert bs[k - 1].status.Succeeded?;
    }
  }

  predicate Prefix(bs: seq<Branch>) {
    forall i: nat, j: nat :: i < j < |bs| && bs[j].status.Succeeded? ==> bs[i].status.Succeeded?
  }

  ghost predicate NoSuccess(log: seq<LogEvent>) {
    forall i: nat :: !CompensationOk(log, i)
  }

  /** Nothing was compensated, or no further branch will be owed a call. */
  ghost predicate Bounded(log: seq<LogEvent>, bs: seq<Branch>, k: nat, held: set<Key>) {
    NoSuccess(log) || !Reach(bs, k, held)
  }

  // ---------------------------------------------------------------------
  // The invariant

  ghost predicate LogDown(log: seq<LogEvent>) {
    forall p :: 0 <= p < |log| && !O.Silent(log[p]) ==> O.ClearBelow(log[..p], log[p].index + 1)
  }

  ghost predicate StoredDown(s: State) {
    && (!s.stored.status.IsTerminal() ==> Clear(s.held, s.log, s.stored.branches, |s.stored.branches|))
    && (GoesForward(s.stored.status) ==> Prefix(s.stored.branches) && Bounded(s.log, s.stored.branches, 0, s.held))
  }

  ghost predicate WorkerDown(s: State, wk: Worker) {
    match wk
    case Idle => true
    case Persisting(tx, next) =>
      && (!tx.status.IsTerminal() ==> Clear(s.held, s.log, tx.branches, |tx.branches|))
      && (GoesForward(tx.status) ==> Prefix(tx.branches) && Bounded(s.log, tx.branches, 0, s.held))
    case AtAction(tx, k) => Mirrors(tx.branches, s.stored.branches)
    case ActionCall(tx, k, call) =>
      && Mirrors(tx.branches, s.stored.branches) && k < |tx.branches| && !tx.branches[k].status.Succeeded?
      && KeyAt(tx.branches, k, Action) in s.held
      && Bounded(s.log, tx.branches, k, s.held - {KeyAt(tx.branches, k, Action)})
    case AtCompensation(tx, k) =>
      && k <= |tx.branches| && Clear(s.held, s.log, tx.branches, k)
      && O.Pass(s.held, s.stored.branches, tx.branches, k, k, {})
      && (GoesForward(s.stored.status) ==>
            !Reach(s.stored.branches, 0, s.held) || !WouldCall(tx.branches, k, s.held))
    case CompensationCall(tx, k, call) =>
      && 0 < k <= |tx.branches| && k <= |s.stored.branches| && Owed(s.stored.branches[k - 1])
      && s.stored.branches[k - 1].compensate.Some?
      && KeyAt(tx.branches, k - 1, Compensate) in s.held
      && O.Pass(s.held, s.stored.branches, tx.branches, k - 1, k, {KeyAt(tx.branches, k - 1, Compensate)})
      && O.ClearBelow(s.log, if call == Replied(true) then k - 1 else k)
      && (GoesForward(s.stored.status) ==>
            !Reach(s.stored.branches, 0, s.held - {KeyAt(tx.branches, k - 1, Compensate)}))
  }

  ghost predicate Down(s: State) {
    LogDown(s.log) && StoredDown(s) && WorkerDown(s, s.worker)
  }

  // ---------------------------------------------------------------------
  // Steps

  /** The log shows the same successful compensations. */
  ghost predicate SameSuccesses(a: seq<LogEvent>, b: seq<LogEvent>) {
    forall i: nat :: CompensationOk(a, i) <==> CompensationOk(b, i)
  }

  lemma ClearMore(held: set<Key>, log: seq<LogEvent>, held': set<Key>, log': seq<LogEvent>, bs: seq<Branch>, k: nat)
    requires k <= |bs| && Clear(held, log, bs, k) && held <= held' && SameSuccesses(log, log')
    ensures Clear(held', log', bs, k)
  {
    FirstCallMore(bs, k, held, held');
  }

  lemma BoundedMore(log: seq<LogEvent>, log': seq<LogEvent>, bs: seq<Branch>, k: nat, held: set<Key>, held': set<Key>)
    requires Bounded(log, bs, k, held) && held <= held' && SameSuccesses(log, log')
    ensures Bounded(log', bs, k, held')
  {
    if Reach(bs, k, held') { ReachLess(bs, k, held, held'); }
  }

  lemma StoredMore(s: State, s': State)
    requires StoredDown(s) && s'.stored == s.stored && s.held <= s'.held && SameSuccesses(s.log, s'.log)
    ensures StoredDown(s')
  {
    var bs := s.stored.branches;
    if !s.stored.status.IsTerminal() { ClearMore(s.held, s.log, s'.held, s'.log, bs, |bs|); }
    if GoesForward(s.stored.status) { BoundedMore(s.log, s'.log, bs, 0, s.held, s'.held); }
  }

  lemma SilentSame(log: seq<LogEvent>, e: LogEvent)
    requires O.Silent(e) || !e.Answered? || !e.ok
    ensures SameSuccesses(log, log + [e])
  {
    OkAppend(log, e);
  }

  lemma LogDownAppend(log: seq<LogEvent>, e: LogEvent)
    requires LogDown(log) && (!O.Silent(e) ==> O.ClearBelow(log, e.index + 1))
    ensures LogDown(log + [e])
  {
    var more := log + [e];
    forall p | 0 <= p < |more| && !O.Silent(more[p]) ensures O.ClearBelow(more[..p], more[p].index + 1) {
      if p < |log| { assert more[..p] == log[..p]; } else { assert more[..p] == log; }
    }
  }

  /** A copy with the stored statuses is as good as the record. */
  lemma CopyDown(s: State, tx: Transaction)
    requires StoredDown(s) && !s.stored.status.IsTerminal() && SameDefinitions(tx.branches, s.stored.branches)
    requires forall i: nat :: i < |tx.branches| ==> tx.branches[i].status == s.stored.branches[i].status
    ensures Clear(s.held, s.log, tx.branches, |tx.branches|)
    ensures GoesForward(s.stored.status) ==> Prefix(tx.branches) && Bounded(s.log, tx.branches, 0, s.held)
  {
    Definitions(tx.branches, s.stored.branches);
    FirstCallSame(tx.branches, s.stored.branches, |tx.branches|, s.held);
    ReachSame(tx.branches, s.stored.branches, 0, s.held);
  }

  lemma Definitions(a: seq<Branch>, b: seq<Branch>)
    requires SameDefinitions(a, b)
    ensures forall i: nat :: i < |a| ==> a[i].id == b[i].id && a[i].compensate == b[i].compensate
  {
    forall i: nat | i < |a| ensures a[i].id == b[i].id && a[i].compensate == b[i].compensate {
      assert Definition(a[i]) == Definition(b[i]);
    }
  }

  lemma BeginDown(s: State, request: Request)
    requires Down(s) && s.worker.Idle? && (request.Abort? ==> !Risky(s))
    ensures Down(s.(worker := BeginRequest(s.stored, request)))
  {
    var wk := BeginRequest(s.stored, request);
    var s' := s.(worker := wk);
    StoredMore(s, s');
    if !wk.Idle? { CopyDown(s, wk.tx); }
  }

  lemma PersistDown(s: State, time: nat)
    requires O.Light(s) && Down(s)
    ensures Down(PersistStep(s, time))
  {
    if s.worker.Persisting? {
      var tx, e := s.worker.tx, Stored(s.worker.tx.status);
      var s' := PersistStep(s, time);
      SilentSame(s.log, e);
      LogDownAppend(s.log, e);
      if !tx.status.IsTerminal() { ClearMore(s.held, s.log, s.held, s'.log, tx.branches, |tx.branches|); }
      if GoesForward(tx.status) { BoundedMore(s.log, s'.log, tx.branches, 0, s.held, s.held); }
    }
  }

  // ---------------------------------------------------------------------
  // Going forward

  /** The bound at branch k of a start pass. */
  lemma BoundAt(s: State, tx: Transaction, k: nat, held: set<Key>)
    requires Mirrors(tx.branches, s.stored.branches) && k <= |tx.branches| && DoneBelow(tx.branches, k)
    ensures Bounded(s.log, s.stored.branches, 0, held) <==> Bounded(s.log, tx.branches, k, held)
  {
    ReachSame(tx.branches, s.stored.branches, 0, held);
    ReachDone(tx.branches, k, held);
  }

  lemma ClaimDown(s: State, tx: Transaction, k: nat)
    requires StoredDown(s) && GoesForward(s.stored.status) && Mirrors(tx.branches, s.stored.branches)
    requires k < |tx.branches| && DoneBelow(tx.branches, k) && !tx.branches[k].status.Succeeded?
    requires KeyAt(tx.branches, k, Action) !in s.held
    ensures var next := tx.(branches := tx.branches[k := StartRunning(tx.branches[k])]);
            WorkerDown(s.(held := s.held + {KeyAt(tx.branches, k, Action)}), ActionCall(next, k, Spawned))
  {
    var key, bs := KeyAt(tx.branches, k, Action), tx.branches[k := StartRunning(tx.branches[k])];
    assert s.held + {key} - {key} == s.held;
    BoundAt(s, tx, k, s.held);
    ReachSame(bs, tx.branches, k, s.held);
  }

  lemma ActionDown(s: State, tx: Transaction, k: nat)
    requires Down(s) && s.worker == AtAction(tx, k)
    requires GoesForward(s.stored.status) && tx.status.Succeeding? && k <= |tx.branches| && DoneBelow(tx.branches, k)
    ensures Down(AdvanceAction(s, tx, k))
  {
    var s' := AdvanceAction(s, tx, k);
    StoredMore(s, s');
    if s'.worker.ActionCall? { ClaimDown(s, tx, k); }
  }

  /** Branch k turns owed: nothing above it is, and it is not one that would be called, unless nothing
      was compensated yet. */
  lemma OwedDown(held: set<Key>, log: seq<LogEvent>, bs: seq<Branch>, k: nat, next: seq<Branch>)
    requires k < |bs| == |next| && NoneOwed(bs, k) && Clear(held, log, bs, |bs|) && Alike(bs, next, k)
    requires next[k].id == bs[k].id && next[k].compensate == bs[k].compensate && NoneOwed(next, k + 1)
    requires NoSuccess(log) || !Callable(bs, k, held)
    ensures Clear(held, log, next, |next|)
  {
    if !NoSuccess(log) {
      FirstCallSkips(bs, |bs|, k, held);
      FirstCallSkips(next, |next|, k + 1, held);
      var key := KeyAt(bs, k, Compensate);
      FirstCallSame(bs, next, k, held);
      FirstCallSame(bs, next, k, held + {key});
      FirstCallMore(bs, k, held, held + {key});
    }
  }

  lemma NoneAbove(bs: seq<Branch>, k: nat)
    requires Prefix(bs) && NoneCompensating(bs) && k < |bs| && !bs[k].status.Succeeded?
    ensures NoneOwed(bs, k)
  {
  }

  /** In a call of action k: what the copy and the bound say. */
  lemma InCall(s: State, tx: Transaction, k: nat, call: Call)
    requires Inv(s) && Down(s) && s.worker == ActionCall(tx, k, call)
    ensures NoneOwed(tx.branches, k) && Prefix(tx.branches) && DoneBelow(tx.branches, k)
    ensures Clear(s.held, s.log, tx.branches, |tx.branches|)
    ensures NoSuccess(s.log) || (!Callable(tx.branches, k, s.held) && !Reach(tx.branches, k + 1, s.held))
  {
    assert NoneCompensating(s.stored.branches);
    NoneAbove(tx.branches, k);
    FirstCallSame(tx.branches, s.stored.branches, |tx.branches|, s.held);
    var key := KeyAt(tx.branches, k, Action);
    assert s.held - {key} + {key} == s.held;
    assert KeyAt(tx.branches, k, Compensate) in s.held <==> KeyAt(tx.branches, k, Compensate) in s.held - {key};
  }

  /** What the two outcomes of a finished action make of the copy. */
  lemma TurnsOwed(tx: Transaction, k: nat, retryAt: nat)
    requires k < |tx.branches| && NoneOwed(tx.branches, k)
    ensures var next := Put(tx, k, BranchStatus.Succeeded, None).branches; Grows(tx.branches, next, k)
    ensures Grows(tx.branches, Exhaust(tx, k, retryAt).branches, k)
  {
  }

  predicate Grows(bs: seq<Branch>, next: seq<Branch>, k: nat) {
    && k < |bs| == |next| && Alike(bs, next, k) && NoneOwed(next, k + 1)
    && next[k].id == bs[k].id && next[k].compensate == bs[k].compensate
  }

  lemma SucceededCopy(held: set<Key>, log: seq<LogEvent>, tx: Transaction, k: nat)
    requires k < |tx.branches| && DoneBelow(tx.branches, k) && Prefix(tx.branches) && NoneOwed(tx.branches, k)
    requires Clear(held, log, tx.branches, |tx.branches|)
    requires NoSuccess(log) || (!Callable(tx.branches, k, held) && !Reach(tx.branches, k + 1, held))
    ensures var next := Put(tx, k, BranchStatus.Succeeded, None).branches;
            Clear(held, log, next, |next|) && Prefix(next) && Bounded(log, next, 0, held)
  {
    var next := Put(tx, k, BranchStatus.Succeeded, None).branches;
    TurnsOwed(tx, k, 0);
    OwedDown(held, log, tx.branches, k, next);
    ReachDone(next, k + 1, held);
    ReachSame(next, tx.branches, k + 1, held);
  }

  lemma SucceededDown(s: State, tx: Transaction, k: nat)
    requires Inv(s) && Down(s) && s.worker == ActionCall(tx, k, Replied(true))
    ensures Down(s.(worker := Persisting(Put(tx, k, BranchStatus.Succeeded, None), Forward(k + 1))))
  {
    InCall(s, tx, k, Replied(true));
    SucceededCopy(s.held, s.log, tx, k);
    StoredMore(s, s.(worker := Persisting(Put(tx, k, BranchStatus.Succeeded, None), Forward(k + 1))));
  }

  lemma ExhaustedDown(s: State, tx: Transaction, k: nat, retryAt: nat)
    requires Inv(s) && Down(s) && s.worker == ActionCall(tx, k, Replied(false))
    ensures Down(s.(worker := Persisting(Exhaust(tx, k, retryAt), EnterAbort)))
  {
    InCall(s, tx, k, Replied(false));
    TurnsOwed(tx, k, retryAt);
    OwedDown(s.held, s.log, tx.branches, k, Exhaust(tx, k, retryAt).branches);
    StoredMore(s, s.(worker := Persisting(Exhaust(tx, k, retryAt), EnterAbort)));
  }

  /** The action barriers do not matter to an abort pass. */
  lemma {:induction false} FirstCallIgnores(bs: seq<Branch>, k: nat, held: set<Key>, key: Key)
    requires k <= |bs| && key.op == Action
    ensures FirstCall(bs, k, held - {key}) == FirstCall(bs, k, held)
  {
    if k > 0 {
      FirstCallIgnores(bs, k - 1, held, key);
      var own := KeyAt(bs, k - 1, Compensate);
      FirstCallIgnores(bs, k - 1, held + {own}, key);
      assert held + {own} - {key} == held - {key} + {own};
    }
  }

  lemma RetryStored(s: State, tx: Transaction, k: nat, held: set<Key>)
    requires StoredDown(s) && GoesForward(s.stored.status) && Mirrors(tx.branches, s.stored.branches)
    requires k < |tx.branches| && DoneBelow(tx.branches, k) && held == s.held - {KeyAt(tx.branches, k, Action)}
    requires Bounded(s.log, tx.branches, k, held)
    ensures StoredDown(s.(held := held))
  {
    BoundAt(s, tx, k, held);
    FirstCallIgnores(s.stored.branches, |s.stored.branches|, s.held, KeyAt(tx.branches, k, Action));
  }

  lemma RetryCopy(held: set<Key>, log: seq<LogEvent>, bs: seq<Branch>, k: nat, b: Branch)
    requires k < |bs| && DoneBelow(bs, k) && Prefix(bs) && !Owed(bs[k]) && !Owed(b)
    requires b.id == bs[k].id && b.compensate == bs[k].compensate && Clear(held, log, bs, |bs|)
    requires Bounded(log, bs, k, held - {KeyAt(bs, k, Action)})
    ensures var next, less := bs[k := b], held - {KeyAt(bs, k, Action)};
            Clear(less, log, next, |next|) && Prefix(next) && Bounded(log, next, 0, less)
  {
    var next, less := bs[k := b], held - {KeyAt(bs, k, Action)};
    FirstCallIgnores(next, |next|, held, KeyAt(bs, k, Action));
    FirstCallSame(next, bs, |next|, held);
    ReachSame(next, bs, 0, less);
    ReachDone(bs, k, less);
    RunningIsLast(bs, k);
  }

  lemma RetryDown(s: State, tx: Transaction, k: nat, retryAt: nat)
    requires Inv(s) && Down(s) && s.worker == ActionCall(tx, k, Replied(false))
    ensures Down(s.(held := s.held - {KeyAt(tx.branches, k, Action)},
                    worker := Persisting(Put(tx, k, BranchStatus.Failed, Some(retryAt)), Return)))
  {
    InCall(s, tx, k, Replied(false));
    RetryStored(s, tx, k, s.held - {KeyAt(tx.branches, k, Action)});
    RetryCopy(s.held, s.log, tx.branches, k, tx.branches[k].(status := BranchStatus.Failed, nextRetry := Some(retryAt)));
  }

  lemma FinishActionDown(s: State, tx: Transaction, k: nat, ok: bool, retryAt: nat)
    requires Inv(s) && Down(s) && s.worker == ActionCall(tx, k, Replied(ok))
    ensures Down(FinishAction(s, tx, k, ok, retryAt))
  {
    if ok { SucceededDown(s, tx, k);
    } else if tx.branches[k].attempts < MaxAttempts(tx.options) { RetryDown(s, tx, k, retryAt);
    } else { ExhaustedDown(s, tx, k, retryAt); }
  }

  // ---------------------------------------------------------------------
  // The compensation loop

  lemma PassedDown(s: State, tx: Transaction, k: nat, b: Branch)
    requires O.Light(s) && Down(s) && s.worker == AtCompensation(tx, k) && k > 0
    requires !Owed(tx.branches[k - 1]) && b.id == tx.branches[k - 1].id && b.compensate == tx.branches[k - 1].compensate
    ensures WorkerDown(s, AtCompensation(tx.(branches := tx.branches[k - 1 := b]), k - 1))
  {
    var bs := tx.branches[k - 1 := b];
    FirstCallSame(bs, tx.branches, k - 1, s.held);
    FirstCallTells(bs, k - 1, s.held);
    FirstCallTells(tx.branches, k, s.held);
  }

  lemma BlockedDown(s: State, tx: Transaction, k: nat)
    requires O.Light(s) && Down(s) && s.worker == AtCompensation(tx, k) && k > 0
    requires Owed(tx.branches[k - 1]) && KeyAt(tx.branches, k - 1, Compensate) in s.held
    ensures WorkerDown(s, Persisting(WithStatus(tx, k - 1, BranchStatus.Compensating), Return))
  {
    var bs := WithStatus(tx, k - 1, BranchStatus.Compensating).branches;
    FirstCallSkips(bs, |bs|, k, s.held);
  }

  /** The pass takes the barrier of branch k - 1 and goes on. */
  lemma TakenPass(held: set<Key>, stored: seq<Branch>, bs: seq<Branch>, k: nat, b: Branch)
    requires 0 < k <= |bs| && SameDefinitions(bs, stored) && O.Pass(held, stored, bs, k, k, {})
    ensures O.Pass(held + {KeyAt(bs, k - 1, Compensate)}, stored, bs[k - 1 := b], k - 1, k - 1, {})
  {
    assert Definition(bs[k - 1]) == Definition(stored[k - 1]);
  }

  lemma TakenClear(held: set<Key>, log: seq<LogEvent>, bs: seq<Branch>, k: nat, b: Branch)
    requires 0 < k <= |bs| && Owed(bs[k - 1]) && bs[k - 1].compensate.None? && Clear(held, log, bs, k)
    requires KeyAt(bs, k - 1, Compensate) !in held
    ensures var more, next := held + {KeyAt(bs, k - 1, Compensate)}, bs[k - 1 := b];
            Clear(more, log, next, k - 1) && (WouldCall(next, k - 1, more) <==> WouldCall(bs, k, held))
  {
    var more, next := held + {KeyAt(bs, k - 1, Compensate)}, bs[k - 1 := b];
    FirstCallSame(next, bs, k - 1, more);
    FirstCallTells(next, k - 1, more);
    FirstCallTells(bs, k, held);
  }

  /** Without a compensation to call, the barrier is taken and the pass goes on. */
  lemma NoneToCallDown(s: State, tx: Transaction, k: nat)
    requires O.Light(s) && Down(s) && s.worker == AtCompensation(tx, k) && k > 0 && Owed(tx.branches[k - 1])
    requires KeyAt(tx.branches, k - 1, Compensate) !in s.held && tx.branches[k - 1].compensate.None?
    ensures WorkerDown(s.(held := s.held + {KeyAt(tx.branches, k - 1, Compensate)}),
                       AtCompensation(Put(tx, k - 1, BranchStatus.Skipped, None), k - 1))
  {
    var key, b := KeyAt(tx.branches, k - 1, Compensate), tx.branches[k - 1].(status := BranchStatus.Skipped, nextRetry := None);
    TakenPass(s.held, s.stored.branches, tx.branches, k, b);
    TakenClear(s.held, s.log, tx.branches, k, b);
    if GoesForward(s.stored.status) && Reach(s.stored.branches, 0, s.held + {key}) {
      ReachLess(s.stored.branches, 0, s.held, s.held + {key});
    }
  }

  lemma CallDown(s: State, tx: Transaction, k: nat, b: Branch)
    requires O.Light(s) && Down(s) && s.worker == AtCompensation(tx, k) && k > 0 && Owed(tx.branches[k - 1])
    requires KeyAt(tx.branches, k - 1, Compensate) !in s.held && tx.branches[k - 1].compensate.Some?
    requires b.id == tx.branches[k - 1].id
    ensures WorkerDown(s.(held := s.held + {KeyAt(tx.branches, k - 1, Compensate)}),
                       CompensationCall(tx.(branches := tx.branches[k - 1 := b]), k, Spawned))
  {
    var key := KeyAt(tx.branches, k - 1, Compensate);
    assert Definition(tx.branches[k - 1]) == Definition(s.stored.branches[k - 1]);
    assert s.held + {key} - {key} == s.held;
    FirstCallTells(tx.branches, k, s.held);
  }

  lemma CompensationDown(s: State, tx: Transaction, k: nat)
    requires O.Light(s) && Down(s) && s.worker == AtCompensation(tx, k) && 0 < k <= |tx.branches|
    ensures Down(AdvanceCompensation(s, tx, k))
  {
    var b, s' := tx.branches[k - 1], AdvanceCompensation(s, tx, k);
    StoredMore(s, s');
    if !Owed(b) {
      PassedDown(s, tx, k, if b.status.Pending? then b.(status := BranchStatus.Skipped) else b);
      assert tx.branches[k - 1 := b] == tx.branches;
    } else if KeyAt(tx.branches, k - 1, Compensate) in s.held {
      BlockedDown(s, tx, k);
    } else if b.compensate.None? {
      NoneToCallDown(s, tx, k);
    } else {
      CallDown(s, tx, k, StartCompensating(b));
    }
  }

  lemma DoneDown(s: State, tx: Transaction, k: nat)
    requires O.Light(s) && Down(s) && s.worker == CompensationCall(tx, k, Replied(true))
    ensures WorkerDown(s, AtCompensation(Put(tx, k - 1, BranchStatus.Skipped, None), k - 1))
  {
    var bs, key := Put(tx, k - 1, BranchStatus.Skipped, None).branches, KeyAt(tx.branches, k - 1, Compensate);
    assert Definition(tx.branches[k - 1]) == Definition(s.stored.branches[k - 1]);
    if GoesForward(s.stored.status) && Reach(s.stored.branches, 0, s.held) {
      ReachLess(s.stored.branches, 0, s.held - {key}, s.held);
    }
  }

  /** The record's own first call after branch k - 1 gave its barrier back. */
  lemma ReleasedStored(held: set<Key>, log: seq<LogEvent>, bs: seq<Branch>, k: nat)
    requires 0 < k <= |bs| && Owed(bs[k - 1]) && bs[k - 1].compensate.Some? && KeyAt(bs, k - 1, Compensate) !in held
    requires forall j: nat :: k <= j < |bs| && Owed(bs[j]) ==> KeyAt(bs, j, Compensate) in held
    requires O.ClearBelow(log, k)
    ensures Clear(held, log, bs, |bs|)
  {
    if exists j: nat :: k <= j < |bs| && Owed(bs[j]) {
      FirstCallBlocked(bs, |bs|, k, held);
    } else {
      FirstCallSkips(bs, |bs|, k, held);
    }
  }

  lemma FailedDown(s: State, tx: Transaction, k: nat, retryAt: nat)
    requires O.Light(s) && Down(s) && s.worker == CompensationCall(tx, k, Replied(false))
    ensures Down(FinishCompensation(s, tx, k, false, retryAt))
  {
    var key, s' := KeyAt(tx.branches, k - 1, Compensate), FinishCompensation(s, tx, k, false, retryAt);
    assert Definition(tx.branches[k - 1]) == Definition(s.stored.branches[k - 1]);
    ReleasedStored(s'.held, s.log, s.stored.branches, k);
    var bs := s'.worker.tx.branches;
    FirstCallSkips(bs, |bs|, k, s'.held);
  }

  lemma FinishDown(s: State, tx: Transaction, k: nat, ok: bool, retryAt: nat)
    requires O.Light(s) && Down(s) && s.worker == CompensationCall(tx, k, Replied(ok))
    ensures Down(FinishCompensation(s, tx, k, ok, retryAt))
  {
    if ok {
      DoneDown(s, tx, k);
      StoredMore(s, FinishCompensation(s, tx, k, true, retryAt));
    } else {
      FailedDown(s, tx, k, retryAt);
    }
  }

  lemma AdvanceDown(s: State, retryAt: nat)
    requires Inv(s) && O.Light(s) && Down(s)
    ensures Down(AdvanceStep(s, retryAt))
  {
    match s.worker
    case AtAction(tx, k) => ActionDown(s, tx, k);
    case ActionCall(tx, k, Replied(ok)) => FinishActionDown(s, tx, k, ok, retryAt);
    case AtCompensation(tx, k) =>
      if k > 0 { CompensationDown(s, tx, k); } else { StoredMore(s, AdvanceStep(s, retryAt)); }
    case CompensationCall(tx, k, Replied(ok)) => FinishDown(s, tx, k, ok, retryAt);
    case _ =>
  }

  // ---------------------------------------------------------------------
  // Calls and stops

  lemma ActionCallDown(s: State, e: LogEvent, call: Call)
    requires Down(s) && s.worker.ActionCall? && !e.Stored? && e.op == Action
    ensures Down(s.(log := s.log + [e], worker := ActionCall(s.worker.tx, s.worker.k, call)))
  {
    var tx, k := s.worker.tx, s.worker.k;
    var s' := s.(log := s.log + [e], worker := ActionCall(tx, k, call));
    SilentSame(s.log, e);
    LogDownAppend(s.log, e);
    StoredMore(s, s');
    var held := s.held - {KeyAt(tx.branches, k, Action)};
    BoundedMore(s.log, s'.log, tx.branches, k, held, held);
  }

  lemma CompensationCallDown(s: State, e: LogEvent, call: Call)
    requires O.Light(s) && Down(s) && s.worker.CompensationCall? && s.worker.call != Replied(true)
    requires !e.Stored? && e.op == Compensate && e.index == s.worker.k - 1
    requires (e.Issued? && call == Open) || (e.Answered? && call == Replied(e.ok))
    ensures Down(s.(log := s.log + [e], worker := CompensationCall(s.worker.tx, s.worker.k, call)))
  {
    var tx, k := s.worker.tx, s.worker.k;
    var bs, key := s.stored.branches, KeyAt(tx.branches, k - 1, Compensate);
    assert Definition(tx.branches[k - 1]) == Definition(bs[k - 1]);
    LogDownAppend(s.log, e);
    O.ClearedBy(s.log, e, k - 1);
    FirstCallBlocked(bs, |bs|, k - 1, s.held);
    if GoesForward(s.stored.status) && Reach(bs, 0, s.held) { ReachLess(bs, 0, s.held - {key}, s.held); }
  }

  lemma IssueDown(s: State, at: nat)
    requires O.Light(s) && Down(s)
    ensures Down(IssueStep(s, at))
  {
    if Target(s.worker).Some? && s.worker.call == Spawned {
      var (op, i) := Target(s.worker).value;
      var e := Issued(op, i, s.worker.tx.branches[i].id, at);
      if op == Action { ActionCallDown(s, e, Open); } else { CompensationCallDown(s, e, Open); }
    }
  }

  lemma AnswerDown(s: State, ok: bool)
    requires O.Light(s) && Down(s)
    ensures Down(AnswerStep(s, ok))
  {
    if Target(s.worker).Some? && s.worker.call == Open {
      var (op, i) := Target(s.worker).value;
      var e := Answered(op, i, s.worker.tx.branches[i].id, ok);
      if op == Action { ActionCallDown(s, e, Replied(ok)); } else { CompensationCallDown(s, e, Replied(ok)); }
    }
  }

  lemma StepDown(s: State, e: Event)
    requires Inv(s) && Down(s) && (e == Begin(Abort) && s.worker.Idle? ==> !Risky(s))
    ensures Down(Step(s, e))
  {
    assert O.Light(s);
    match e
    case Begin(request) => if s.worker.Idle? { BeginDown(s, request); }
    case Persist(time) => PersistDown(s, time);
    case Advance(retryAt) => AdvanceDown(s, retryAt);
    case Issue(at) => IssueDown(s, at);
    case Answer(ok) => AnswerDown(s, ok);
    case Crash => StoredMore(s, CrashStep(s));
  }

  lemma {:induction false} ExecDown(s: State, es: seq<Event>)
    requires Inv(s) && Down(s) && NoRiskyAbort(s, es)
    ensures Down(Exec(s, es))
    decreases |es|
  {
    if es != [] {
      StepDown(s, es[0]);
      StepKeeps(s, es[0]);
      ExecDown(Step(s, es[0]), es[1..]);
    }
  }

  lemma FreshDown(s: State)
    requires Fresh(s)
    ensures Down(s)
  {
    var bs := s.stored.branches;
    FirstCallSkips(bs, |bs|, 0, {});
  }

  /** If no abort request is risky, successful compensations have strictly decreasing indices, wherever
      passes stop. */
  lemma UnriskyAbortsGoDownwards(s: State, es: seq<Event>)
    requires Fresh(s) && NoRiskyAbort(s, es)
    ensures O.CompensatesDownwards(Exec(s, es).log)
  {
    FreshDown(s);
    ExecDown(s, es);
    var log := Exec(s, es).log;
    forall p, q | 0 <= p < q < |log| && O.IsCompensation(log[p]) && O.IsCompensation(log[q])
      ensures log[q].index < log[p].index {
      assert log[..q][p] == log[p];
      assert CompensationOk(log[..q], log[p].index);
    }
  }

  // ---------------------------------------------------------------------
  // Every risky request can break the order

  /** Successes form a prefix in whatever goes forward. */
  predicate Straight(s: State) {
    && (GoesForward(s.stored.status) ==> Prefix(s.stored.branches))
    && (s.worker.AtAction? || s.worker.ActionCall? ==> Prefix(s.worker.tx.branches))
    && (s.worker.Persisting? && GoesForward(s.worker.tx.status) ==> Prefix(s.worker.tx.branches))
  }

  lemma ActionStraight(s: State, tx: Transaction, k: nat)
    requires Straight(s) && s.worker == AtAction(tx, k)
    ensures Straight(AdvanceAction(s, tx, k))
  {
    if k < |tx.branches| && !tx.branches[k].status.Succeeded? { RunningIsLast(tx.branches, k); }
  }

  lemma FinishStraight(s: State, tx: Transaction, k: nat, ok: bool, retryAt: nat)
    requires Straight(s) && s.worker == ActionCall(tx, k, Replied(ok)) && k < |tx.branches|
    requires DoneBelow(tx.branches, k) && !tx.branches[k].status.Succeeded?
    ensures Straight(FinishAction(s, tx, k, ok, retryAt))
  {
    if !ok { RunningIsLast(tx.branches, k); }
  }

  lemma UndoStraight(s: State, retryAt: nat)
    requires Straight(s) && (s.worker.AtCompensation? || s.worker.CompensationCall?) && s.worker.tx.status.Aborting?
    ensures Straight(AdvanceStep(s, retryAt))
  {
  }

  lemma AdvanceStraight(s: State, retryAt: nat)
    requires Inv(s) && Straight(s)
    ensures Straight(AdvanceStep(s, retryAt))
  {
    match s.worker
    case AtAction(tx, k) => ActionStraight(s, tx, k);
    case ActionCall(tx, k, Replied(ok)) => FinishStraight(s, tx, k, ok, retryAt);
    case AtCompensation(_, _) => UndoStraight(s, retryAt);
    case CompensationCall(_, _, _) => UndoStraight(s, retryAt);
    case _ =>
  }

  lemma RunningIsLast(bs: seq<Branch>, k: nat)
    requires Prefix(bs) && k < |bs| && !bs[k].status.Succeeded?
    ensures forall b: Branch :: !b.status.Succeeded? ==> Prefix(bs[k := b])
  {
  }

  lemma StepStraight(s: State, e: Event)
    requires Inv(s) && Straight(s)
    ensures Straight(Step(s, e))
  {
    if e.Advance? { AdvanceStraight(s, e.retryAt); }
  }

  lemma {:induction false} ExecStraight(s: State, es: seq<Event>)
    requires Inv(s) && Straight(s)
    ensures Straight(Exec(s, es))
    decreases |es|
  {
    if es != [] {
      StepStraight(s, es[0]);
      StepKeeps(s, es[0]);
      ExecStraight(Step(s, es[0]), es[1..]);
    }
  }

  /** Only compensate barriers of owed branches were taken. */
  ghost predicate TookOwed(held: set<Key>, more: set<Key>, bs: seq<Branch>) {
    held <= more && forall key :: key in more - held ==>
      key.op == Compensate && exists i :: 0 <= i < |bs| && Owed(bs[i]) && bs[i].id == key.branch
  }

  /** One step of an abort pass that calls nothing. */
  lemma StepsPast(s: State, tx: Transaction, k: nat)
    requires s.worker == AtCompensation(tx, k) && 0 < k <= |tx.branches|
    requires FirstCall(tx.branches, k, s.held) >= 0 && FirstCall(tx.branches, k, s.held) != k - 1
    ensures var t := Step(s, Advance(0));
            && t.worker.AtCompensation? && t.worker.k == k - 1 && |t.worker.tx.branches| == |tx.branches|
            && t.stored == s.stored && t.log == s.log && s.held <= t.held
            && (forall i :: 0 <= i < k - 1 ==> t.worker.tx.branches[i] == tx.branches[i])
            && FirstCall(t.worker.tx.branches, k - 1, t.held) == FirstCall(tx.branches, k, s.held)
            && (t.held == s.held || (Owed(tx.branches[k - 1]) && t.held == s.held + {KeyAt(tx.branches, k - 1, Compensate)}))
  {
    var t := Step(s, Advance(0));
    FirstCallSame(t.worker.tx.branches, tx.branches, k - 1, t.held);
  }

  lemma TookOwedOne(held: set<Key>, more: set<Key>, end: set<Key>, bs: seq<Branch>, i: nat)
    requires TookOwed(more, end, bs) && i < |bs|
    requires more == held || (Owed(bs[i]) && more == held + {Key(bs[i].id, Compensate)})
    ensures TookOwed(held, end, bs)
  {
    forall key | key in end - held
      ensures key.op == Compensate && exists j :: 0 <= j < |bs| && Owed(bs[j]) && bs[j].id == key.branch {
      if key in end - more { assert key.op == Compensate; } else { assert bs[i].id == key.branch; }
    }
  }

  /** An abort pass comes to its first call. */
  lemma {:induction false} ComesToCall(s: State, tx: Transaction, k: nat, bs: seq<Branch>) returns (es: seq<Event>)
    requires s.worker == AtCompensation(tx, k) && k <= |tx.branches| == |bs| && FirstCall(tx.branches, k, s.held) >= 0
    requires Alike(tx.branches, bs, k)
    ensures var t, a := Exec(s, es), FirstCall(tx.branches, k, s.held);
            && O.AboutToCompensate(t) && t.worker.k == a + 1 && Owed(bs[a])
            && t.stored == s.stored && t.log == s.log && TookOwed(s.held, t.held, bs)
    decreases k
  {
    var s' := Step(s, Advance(0));
    if FirstCall(tx.branches, k, s.held) == k - 1 {
      CallsNow(s, tx, k);
      es := [Advance(0)];
      assert es[1..] == [] && Exec(s', []) == s';
      TookOwedOne(s.held, s'.held, s'.held, bs, k - 1);
    } else {
      StepsPast(s, tx, k);
      var rest := ComesToCall(s', s'.worker.tx, k - 1, bs);
      es := [Advance(0)] + rest;
      assert es[1..] == rest;
      TookOwedOne(s.held, s'.held, Exec(s', rest).held, bs, k - 1);
    }
  }

  lemma CallsNow(s: State, tx: Transaction, k: nat)
    requires s.worker == AtCompensation(tx, k) && 0 < k <= |tx.branches| && FirstCall(tx.branches, k, s.held) == k - 1
    ensures var t := Step(s, Advance(0));
            && O.AboutToCompensate(t) && t.worker.k == k && Owed(tx.branches[k - 1]) && t.stored == s.stored
            && t.log == s.log && t.held == s.held + {KeyAt(tx.branches, k - 1, Compensate)}
  {
  }

  /** What a start pass could reach, it still can. */
  lemma {:induction false} ReachKeeps(bs: seq<Branch>, k: nat, held: set<Key>, more: set<Key>)
    requires held <= more && Reach(bs, k, held)
    requires forall key :: key in more - held ==> key.op == Compensate && Key(key.branch, Action) in held
    ensures Reach(bs, k, more)
    decreases |bs| - k
  {
    if bs[k].status.Succeeded? {
      ReachKeeps(bs, k + 1, held, more);
    } else if !Callable(bs, k, held) {
      var own := KeyAt(bs, k, Action);
      ReachKeeps(bs, k + 1, held + {own}, more + {own});
    }
  }

  /** A compensation that was about to be called succeeds, and the pass stops. */
  lemma SucceedsAndStops(s: State)
    requires O.AboutToCompensate(s)
    ensures var t, a := Exec(s, SUCCEED_AND_STOP), s.worker.k - 1;
            && t.worker.Idle? && t.stored == s.stored && t.held == s.held && |t.log| == |s.log| + 2
            && t.log[..|s.log|] == s.log && O.IsCompensation(t.log[|s.log| + 1]) && t.log[|s.log| + 1].index == a
  {
    assert SUCCEED_AND_STOP[1..] == [Answer(true), Crash] && [Answer(true), Crash][1..] == [Crash] && [Crash][1..] == [];
    var s1 := Step(s, Issue(0));
    var s2 := Step(s1, Answer(true));
    var s3 := Step(s2, Crash);
    assert Exec(s2, [Crash]) == Exec(s3, []);
    assert Exec(s1, [Answer(true), Crash]) == Exec(s2, [Crash]);
    assert s2.log == s.log + [s2.log[|s.log|], s2.log[|s.log| + 1]];
  }

  const SUCCEED_AND_STOP: seq<Event> := [Issue(0), Answer(true), Crash]
  const RUN_ACTION: seq<Event> := [Advance(0), Issue(0), Answer(true), Advance(0)]

  /** The start pass is at branch k, over the record as it stands. */
  predicate StartsAt(s: State, k: nat) {
    s.worker == AtAction(s.stored, k) && s.stored.status.Succeeding?
  }

  lemma RunsAction(s: State, k: nat)
    requires StartsAt(s, k) && k < |s.stored.branches| && !s.stored.branches[k].status.Succeeded?
    requires KeyAt(s.stored.branches, k, Action) !in s.held
    ensures var t := Exec(s, RUN_ACTION + [Persist(0)]);
            && StartsAt(t, k + 1) && t.held == s.held + {KeyAt(s.stored.branches, k, Action)} && s.log <= t.log
            && |t.stored.branches| == |s.stored.branches| && t.stored.branches[k].status.Succeeded?
            && (forall i :: 0 <= i < |s.stored.branches| && i != k ==> t.stored.branches[i] == s.stored.branches[i])
            && t.stored.branches[k].id == s.stored.branches[k].id
            && t.stored.branches[k].compensate == s.stored.branches[k].compensate
  {
    O.RunFour(s, Advance(0), Issue(0), Answer(true), Advance(0));
    var tx := s.stored;
    var running := tx.(branches := tx.branches[k := StartRunning(tx.branches[k])]);
    var s1 := Step(s, Advance(0));
    assert s1.worker == ActionCall(running, k, Spawned);
    var s3 := Step(Step(s1, Issue(0)), Answer(true));
    assert s3.worker == ActionCall(running, k, Replied(true)) && s3.held == s1.held && s.log <= s3.log;
    var s4 := Step(s3, Advance(0));
    assert s4.worker == Persisting(Put(running, k, BranchStatus.Succeeded, None), Forward(k + 1));
    O.ExecAppend(s, RUN_ACTION, [Persist(0)]);
    assert [Persist(0)][1..] == [] && Exec(s4, [Persist(0)]) == Exec(Step(s4, Persist(0)), []);
  }

  /** The start pass goes on until branch j is owed a compensation that can be called. */
  lemma {:induction false} RunsUp(s: State, k: nat) returns (es: seq<Event>, j: nat)
    requires StartsAt(s, k) && Reach(s.stored.branches, k, s.held)
    ensures k <= j < |s.stored.branches| && !s.stored.branches[j].status.Succeeded?
    ensures var t := Exec(s, es);
            && GoesForward(t.stored.status) && s.log <= t.log && |t.stored.branches| == |s.stored.branches|
            && t.stored.branches[j].status.Succeeded? && Callable(t.stored.branches, j, t.held)
            && forall i :: j < i < |s.stored.branches| ==> t.stored.branches[i] == s.stored.branches[i]
    decreases |s.stored.branches| - k
  {
    var bs := s.stored.branches;
    if bs[k].status.Succeeded? {
      var s' := Step(s, Advance(0));
      var rest, i := RunsUp(s', k + 1);
      es, j := [Advance(0)] + rest, i;
      assert es[1..] == rest;
    } else {
      RunsAction(s, k);
      var run := RUN_ACTION + [Persist(0)];
      var t := Exec(s, run);
      if Callable(bs, k, s.held) {
        es, j := run, k;
      } else {
        ReachSame(t.stored.branches, bs, k + 1, t.held);
        var rest, i := RunsUp(t, k + 1);
        es, j := run + rest, i;
        O.ExecAppend(s, run, rest);
      }
    }
  }

  lemma RunTwo(s: State, a: Event, b: Event)
    ensures Exec(s, [a, b]) == Step(Step(s, a), b)
  {
    var s1 := Step(s, a);
    assert [a, b][1..] == [b] && [b][1..] == [];
    assert Exec(s1, [b]) == Exec(Step(s1, b), []);
  }

  const RESTART: seq<Event> := [Begin(Start), Persist(0)]
  const ABORT_AGAIN: seq<Event> := [Crash, Begin(Abort)]

  lemma Restarts(s: State)
    requires s.worker.Idle? && GoesForward(s.stored.status)
    ensures var t := Exec(s, RESTART);
            StartsAt(t, 0) && t.stored.branches == s.stored.branches && t.held == s.held && s.log <= t.log
  {
    RunTwo(s, Begin(Start), Persist(0));
  }

  /** With branch j owed a call and nothing owed above it, the next abort pass compensates j. */
  lemma CompensatesNext(s: State, j: nat) returns (es: seq<Event>, q: nat)
    requires GoesForward(s.stored.status) && j < |s.stored.branches| && s.stored.branches[j].status.Succeeded?
    requires Callable(s.stored.branches, j, s.held) && NoneOwed(s.stored.branches, j + 1)
    ensures var end := Exec(s, es);
            |s.log| <= q < |end.log| && s.log <= end.log && O.IsCompensation(end.log[q]) && end.log[q].index == j
  {
    RunTwo(s, Crash, Begin(Abort));
    var t := Exec(s, ABORT_AGAIN);
    var bs := s.stored.branches;
    FirstCallSkips(bs, |bs|, j + 1, s.held);
    var call := ComesToCall(t, t.worker.tx, |bs|, bs);
    var u := Exec(t, call);
    SucceedsAndStops(u);
    q := |u.log| + 1;
    es := ABORT_AGAIN + call + SUCCEED_AND_STOP;
    O.ExecAppend(s, ABORT_AGAIN, call);
    O.ExecAppend(s, ABORT_AGAIN + call, SUCCEED_AND_STOP);
  }

  /** From a stop with branch a compensated, the order breaks once a branch above a can be run. */
  lemma BreaksAfterStop(s: State, a: nat, p: nat) returns (es: seq<Event>)
    requires s.worker.Idle? && GoesForward(s.stored.status) && Reach(s.stored.branches, 0, s.held)
    requires Prefix(s.stored.branches) && NoneCompensating(s.stored.branches)
    requires a < |s.stored.branches| && s.stored.branches[a].status.Succeeded?
    requires p < |s.log| && O.IsCompensation(s.log[p]) && s.log[p].index == a
    ensures !O.CompensatesDownwards(Exec(s, es).log)
  {
    Restarts(s);
    var t := Exec(s, RESTART);
    var up, j := RunsUp(t, 0);
    NoneAbove(s.stored.branches, j);
    assert a < j;
    var next, q := CompensatesNext(Exec(t, up), j);
    es := RESTART + up + next;
    O.ExecAppend(s, RESTART, up);
    O.ExecAppend(s, RESTART + up, next);
    var log := Exec(s, es).log;
    assert log[p] == s.log[p] && p < q;
  }

  /** A succeeded branch keeps its action barrier. */
  lemma SucceededHolds(s: State, i: nat)
    requires Inv(s) && i < |s.stored.branches| && s.stored.branches[i].status.Succeeded?
    ensures KeyAt(s.stored.branches, i, Action) in s.held
  {
    assert ActionOk(s.log, i);
    var p :| 0 <= p < |s.log| && s.log[p].Answered? && s.log[p].op == Action && s.log[p].index == i && s.log[p].ok;
    assert s.log[p].id == s.stored.branches[i].id;
  }

  lemma StillReaches(s: State, more: set<Key>)
    requires Inv(s) && GoesForward(s.stored.status) && Reach(s.stored.branches, 0, s.held)
    requires TookOwed(s.held, more, s.stored.branches)
    ensures Reach(s.stored.branches, 0, more)
  {
    var bs := s.stored.branches;
    forall key | key in more - s.held ensures key.op == Compensate && Key(key.branch, Action) in s.held {
      var i :| 0 <= i < |bs| && Owed(bs[i]) && bs[i].id == key.branch;
      SucceededHolds(s, i);
    }
    ReachKeeps(bs, 0, s.held, more);
  }

  lemma RiskyBreaks(s: State) returns (es: seq<Event>)
    requires Inv(s) && Straight(s) && s.worker.Idle? && Risky(s)
    ensures !O.CompensatesDownwards(Exec(s, [Begin(Abort)] + es).log)
  {
    var bs := s.stored.branches;
    var s1 := Step(s, Begin(Abort));
    FirstCallTells(bs, |bs|, s.held);
    var call := ComesToCall(s1, s1.worker.tx, |bs|, bs);
    var t := Exec(s1, call);
    var a := t.worker.k - 1;
    SucceedsAndStops(t);
    var u := Exec(t, SUCCEED_AND_STOP);
    StillReaches(s, u.held);
    var rest := BreaksAfterStop(u, a, |t.log| + 1);
    es := call + SUCCEED_AND_STOP + rest;
    O.ExecAppend(s1, call, SUCCEED_AND_STOP);
    O.ExecAppend(s1, call + SUCCEED_AND_STOP, rest);
    assert ([Begin(Abort)] + es)[1..] == es;
  }

  /** Every risky abort request, at any point of any run, has a continuation in which successful
      compensations do not go downwards: the pass compensates a branch and stops, a start pass runs a
      later branch, and the next abort pass compensates that one. */
  lemma RiskyAbortBreaksOrder(s: State, run: seq<Event>) returns (es: seq<Event>)
    requires Fresh(s) && Exec(s, run).worker.Idle? && Risky(Exec(s, run))
    ensures !O.CompensatesDownwards(Exec(s, run + ([Begin(Abort)] + es)).log)
  {
    ExecKeeps(s, run);
    ExecStraight(s, run);
    es := RiskyBreaks(Exec(s, run));
    O.ExecAppend(s, run, [Begin(Abort)] + es);
  }

  // ---------------------------------------------------------------------
  // A run out of order

  /** The first of two actions is open; nothing else was claimed. */
  predicate FirstOpen(s: State) {
    && s.worker.ActionCall? && s.worker.k == 0 && s.worker.call == Open && s.worker.tx.status.Succeeding?
    && |s.worker.tx.branches| == 2 && s.worker.tx.branches[1].status.Pending?
    && s.worker.tx.branches[0].id != s.worker.tx.branches[1].id
    && s.worker.tx.branches[0].compensate.Some? && s.worker.tx.branches[1].compensate.Some?
    && s.held == {Key(s.worker.tx.branches[0].id, Action)}
  }

  predicate TwoBranches(bs: seq<Branch>) {
    |bs| == 2 && bs[0].id != bs[1].id && bs[0].compensate.Some? && bs[1].compensate.Some?
  }

  lemma OpensFirst(s: State)
    requires Fresh(s) && TwoBranches(s.stored.branches)
    ensures FirstOpen(Exec(s, O.FIRST_ACTION))
  {
    O.RunFour(s, Begin(Start), Persist(0), Advance(0), Issue(0));
    var s2 := Step(Step(s, Begin(Start)), Persist(0));
    assert s2.worker.AtAction? && s2.worker.k == 0 && s2.held == {} && s2.worker.tx.branches == s.stored.branches;
    var s3 := Step(s2, Advance(0));
    assert s3.worker.ActionCall? && s3.held == {Key(s.stored.branches[0].id, Action)};
  }

  lemma StopsRisky(s: State)
    requires FirstOpen(s)
    ensures var t := Exec(s, O.STOP_AFTER_IT); t.worker.Idle? && Risky(t)
  {
    O.RunFour(s, Answer(true), Advance(0), Persist(0), Crash);
    var s2 := Step(Step(s, Answer(true)), Advance(0));
    assert s2.worker.Persisting? && s2.worker.tx.branches[0].status.Succeeded? && s2.held == s.held;
    var t := Step(Step(s2, Persist(0)), Crash);
    var bs := t.stored.branches;
    assert WouldCall(bs, 1, t.held);
    assert Callable(bs, 1, t.held) && Reach(bs, 1, t.held);
  }

  /** Two branches are enough: a run whose successful compensations are not in decreasing order. */
  lemma OrderFails(s: State) returns (es: seq<Event>)
    requires Fresh(s) && TwoBranches(s.stored.branches)
    ensures !O.CompensatesDownwards(Exec(s, es).log)
  {
    var run := O.FIRST_ACTION + O.STOP_AFTER_IT;
    OpensFirst(s);
    StopsRisky(Exec(s, O.FIRST_ACTION));
    O.ExecAppend(s, O.FIRST_ACTION, O.STOP_AFTER_IT);
    var rest := RiskyAbortBreaksOrder(s, run);
    es := run + ([Begin(Abort)] + rest);
  }
}
