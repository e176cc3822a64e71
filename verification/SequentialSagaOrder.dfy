/** The order of compensations, and the one stop that breaks it. An abort pass entered while the
    stored status still goes forward calls compensations before it stores Aborting. If it stops in
    between, a later start pass resumes the Saga. Without such a stop, successful compensations run
    in strictly decreasing index order and nothing goes forward after the first of them. */
module SequentialSagaOrder {
  import opened Core
  import opened Edits
  import opened SequentialSaga
  import opened SequentialSagaSafety

  predicate Silent(e: LogEvent) { e.Stored? || e.op != Compensate }

  /** No compensation was called. */
  predicate NoCompensation(log: seq<LogEvent>) {
    forall p :: 0 <= p < |log| ==> Silent(log[p])
  }

  /** Every successful compensation has index k or more. */
  ghost predicate ClearBelow(log: seq<LogEvent>, k: int) {
    forall i: nat :: CompensationOk(log, i) ==> i >= k
  }

  predicate MovesForward(e: LogEvent) {
    match e
    case Stored(status) => status.Succeeding? || status.Succeeded?
    case _ => e.op == Action
  }

  ghost predicate Ordered(e: LogEvent, before: seq<LogEvent>) {
    && (MovesForward(e) ==> NoCompensation(before))
    && (!Silent(e) ==> ClearBelow(before, e.index + 1))
  }

  ghost predicate LogOrdered(log: seq<LogEvent>) {
    forall p :: 0 <= p < |log| ==> Ordered(log[p], log[..p])
  }

  /** The highest branch below k that an abort pass compensates, or -1. */
  function Top(bs: seq<Branch>, k: nat): (r: int)
    requires k <= |bs|
    ensures -1 <= r < k
    ensures r >= 0 ==> Owed(bs[r])
    ensures forall i: nat :: i < k && r < i ==> !Owed(bs[i])
  {
    if k == 0 then -1 else if Owed(bs[k - 1]) then k - 1 else Top(bs, k - 1)
  }

  lemma TopIs(bs: seq<Branch>, k: nat, r: nat)
    requires r < k <= |bs| && Owed(bs[r]) && forall i: nat :: r < i < k ==> !Owed(bs[i])
    ensures Top(bs, k) == r
  {
  }

  /** The next branch that a pass would compensate is blocked, or lies below all that succeeded. */
  ghost predicate Clear(held: set<Key>, log: seq<LogEvent>, bs: seq<Branch>, k: nat)
    requires k <= |bs|
  {
    Top(bs, k) >= 0 && KeyAt(bs, Top(bs, k), Compensate) !in held ==> ClearBelow(log, Top(bs, k) + 1)
  }

  /** The pass holds the barriers of the owed branches it has passed, and has not touched those below m. */
  predicate Pass(held: set<Key>, stored: seq<Branch>, bs: seq<Branch>, m: nat, k: nat, free: set<Key>) {
    && |bs| == |stored|
    && (forall j: nat :: k <= j < |bs| && Owed(stored[j]) ==> KeyAt(stored, j, Compensate) in held - free)
    && forall j: nat :: j < m && j < |bs| ==> bs[j].status == stored[j].status
  }

  ghost predicate WorkerOrder(s: State, wk: Worker) {
    match wk
    case Idle => GoesForward(s.stored.status) ==> NoCompensation(s.log)
    case Persisting(tx, next) =>
      && (!tx.status.IsTerminal() ==> Clear(s.held, s.log, tx.branches, |tx.branches|))
      && (next.EnterAbort? ==> NoCompensation(s.log))
      && (tx.status.Aborting? || tx.status.Aborted? || (GoesForward(s.stored.status) ==> NoCompensation(s.log)))
      && (GoesForward(tx.status) || tx.status.Succeeded? ==> NoCompensation(s.log))
    case AtAction(tx, k) => NoCompensation(s.log)
    case ActionCall(tx, k, call) => NoCompensation(s.log)
    case AtCompensation(tx, k) =>
      k <= |tx.branches| && Clear(s.held, s.log, tx.branches, k) && Pass(s.held, s.stored.branches, tx.branches, k, k, {})
    case CompensationCall(tx, k, call) =>
      && 0 < k <= |tx.branches| && k <= |s.stored.branches| && Owed(s.stored.branches[k - 1])
      && Pass(s.held, s.stored.branches, tx.branches, k - 1, k, {KeyAt(tx.branches, k - 1, Compensate)})
      && ClearBelow(s.log, if call == Replied(true) then k - 1 else k)
      && (call == Replied(true) ==> KeyAt(tx.branches, k - 1, Compensate) in s.held)
  }

  ghost predicate StoredOrder(s: State) {
    !s.stored.status.IsTerminal() ==> Clear(s.held, s.log, s.stored.branches, |s.stored.branches|)
  }

  ghost predicate Order(s: State) {
    LogOrdered(s.log) && StoredOrder(s) && WorkerOrder(s, s.worker)
  }

  /** The part of the invariant that the order of compensations rests on. */
  ghost predicate Light(s: State) {
    (!s.worker.Idle? ==> SameDefinitions(s.worker.tx.branches, s.stored.branches)) &&
    match s.worker
    case Idle => true
    case Persisting(tx, next) =>
      (next.EnterAbort? ==> tx.status.Aborting?) && (next.Forward? ==> tx.status.Succeeding?)
    case AtAction(tx, k) => tx.status.Succeeding?
    case ActionCall(tx, k, call) => tx.status.Succeeding? && k < |tx.branches|
    case AtCompensation(tx, k) => tx.status.Aborting? && k <= |tx.branches| && NoneOwed(tx.branches, k)
    case CompensationCall(tx, k, call) => tx.status.Aborting? && 0 < k <= |tx.branches| && NoneOwed(tx.branches, k)
  }

  // ---------------------------------------------------------------------
  // Small steps

  lemma QuietIsClear(log: seq<LogEvent>, k: int)
    requires NoCompensation(log)
    ensures ClearBelow(log, k)
  {
  }

  lemma QuietAppend(log: seq<LogEvent>, e: LogEvent)
    requires NoCompensation(log) && Silent(e)
    ensures NoCompensation(log + [e])
  {
  }

  lemma OrderedAppend(log: seq<LogEvent>, e: LogEvent)
    requires LogOrdered(log) && Ordered(e, log)
    ensures LogOrdered(log + [e])
  {
    var more := log + [e];
    forall p | 0 <= p < |more| ensures Ordered(more[p], more[..p]) {
      if p < |log| { assert more[..p] == log[..p]; } else { assert more[..p] == log; }
    }
  }

  /** Only the statuses and ids matter. */
  lemma {:induction false} TopSame(a: seq<Branch>, b: seq<Branch>, k: nat)
    requires k <= |a| && k <= |b| && forall i: nat :: i < k ==> (Owed(a[i]) <==> Owed(b[i]))
    ensures Top(a, k) == Top(b, k)
  {
    if k > 0 && !Owed(a[k - 1]) { TopSame(a, b, k - 1); }
  }

  lemma ClearSame(s: State, s': State, a: seq<Branch>, b: seq<Branch>, k: nat)
    requires k <= |a| && |a| == |b| && SameDefinitions(a, b) && Clear(s.held, s.log, a, k)
    requires forall i: nat :: i < k ==> (Owed(a[i]) <==> Owed(b[i]))
    requires s.held <= s'.held && forall m :: ClearBelow(s.log, m) ==> ClearBelow(s'.log, m)
    ensures Clear(s'.held, s'.log, b, k)
  {
    TopSame(a, b, k);
    var t := Top(a, k);
    if t >= 0 { assert Definition(a[t]) == Definition(b[t]); }
  }

  lemma SameOk(log: seq<LogEvent>, e: LogEvent)
    requires Silent(e) || !e.Answered? || !e.ok
    ensures forall m :: ClearBelow(log, m) ==> ClearBelow(log + [e], m)
  {
    OkAppend(log, e);
    forall m | ClearBelow(log, m) ensures ClearBelow(log + [e], m) {
      forall i: nat | CompensationOk(log + [e], i) ensures i >= m { assert CompensationOk(log, i); }
    }
  }

  lemma BeginOrder(s: State, request: Request)
    requires Light(s) && Order(s) && s.worker.Idle?
    ensures Order(s.(worker := BeginRequest(s.stored, request)))
  {
    var wk := BeginRequest(s.stored, request);
    if wk.AtCompensation? { BeginAbort(s, wk.tx); }
    if wk.Persisting? { BeginPersist(s, wk.tx, request); }
  }

  lemma BeginAbort(s: State, tx: Transaction)
    requires Order(s) && s.worker.Idle? && !s.stored.status.IsTerminal() && tx.branches == s.stored.branches
    ensures WorkerOrder(s, AtCompensation(tx, |tx.branches|))
  {
  }

  lemma BeginPersist(s: State, tx: Transaction, request: Request)
    requires Order(s) && s.worker.Idle?
    requires BeginRequest(s.stored, request).Persisting? && tx == BeginRequest(s.stored, request).tx
    ensures WorkerOrder(s, BeginRequest(s.stored, request))
  {
    ClearSame(s, s, s.stored.branches, tx.branches, |s.stored.branches|);
  }

  lemma PersistOrder(s: State, time: nat)
    requires Light(s) && Order(s)
    ensures Order(PersistStep(s, time))
  {
    if s.worker.Persisting? {
      var tx, next := s.worker.tx, s.worker.next;
      var n := |tx.branches|;
      var e := Stored(tx.status);
      var s' := PersistStep(s, time);
      OrderedAppend(s.log, e);
      SameOk(s.log, e);
      if NoCompensation(s.log) { QuietAppend(s.log, e); }
      if !tx.status.IsTerminal() { ClearSame(s, s', tx.branches, s'.stored.branches, n); }
    }
  }

  lemma ActionOrder(s: State, retryAt: nat)
    requires Light(s) && Order(s) && (s.worker.AtAction? || s.worker.ActionCall?)
    ensures Order(AdvanceStep(s, retryAt))
  {
    var s' := AdvanceStep(s, retryAt);
    forall k ensures ClearBelow(s'.log, k) { QuietIsClear(s'.log, k); }
  }

  // ---------------------------------------------------------------------
  // The compensation loop

  lemma PassedBranch(held: set<Key>, log: seq<LogEvent>, stored: seq<Branch>, bs: seq<Branch>, k: nat, b: Branch)
    requires 0 < k <= |bs| && !Owed(bs[k - 1]) && Clear(held, log, bs, k) && Pass(held, stored, bs, k, k, {})
    requires b.id == bs[k - 1].id
    ensures Clear(held, log, bs[k - 1 := b], k - 1) && Pass(held, stored, bs[k - 1 := b], k - 1, k - 1, {})
  {
    TopSame(bs, bs[k - 1 := b], k - 1);
  }

  lemma PassedOrder(s: State)
    requires Light(s) && Order(s) && s.worker.AtCompensation? && s.worker.k > 0
    requires !Owed(s.worker.tx.branches[s.worker.k - 1])
    ensures Order(AdvanceCompensation(s, s.worker.tx, s.worker.k))
  {
    var tx, k := s.worker.tx, s.worker.k;
    var s' := AdvanceCompensation(s, tx, k);
    MoreHeld(s, s');
    PassedWorker(s, tx, k, if tx.branches[k - 1].status.Pending? then BranchStatus.Skipped else tx.branches[k - 1].status);
    assert s'.worker.tx.branches == tx.branches[k - 1 := s'.worker.tx.branches[k - 1]];
  }

  lemma PassedWorker(s: State, tx: Transaction, k: nat, status: BranchStatus)
    requires Light(s) && Order(s) && s.worker == AtCompensation(tx, k) && k > 0 && !Owed(tx.branches[k - 1])
    ensures WorkerOrder(s, AtCompensation(WithStatus(tx, k - 1, status), k - 1))
  {
    PassedBranch(s.held, s.log, s.stored.branches, tx.branches, k, tx.branches[k - 1].(status := status));
  }

  /** The top of the record is among the branches the pass has dealt with, or is still ahead. */
  lemma StoredStaysClear(s: State, s': State, k: nat)
    requires s'.stored == s.stored && k <= |s.stored.branches|
    requires Top(s.stored.branches, |s.stored.branches|) >= k ==>
               KeyAt(s.stored.branches, Top(s.stored.branches, |s.stored.branches|), Compensate) in s'.held
    requires k > 0 && Owed(s.stored.branches[k - 1])
    requires ClearBelow(s'.log, k) || KeyAt(s.stored.branches, k - 1, Compensate) in s'.held
    ensures StoredOrder(s')
  {
    var t := Top(s.stored.branches, |s.stored.branches|);
    assert t >= k - 1;
  }

  lemma BlockedOrder(s: State)
    requires Light(s) && Order(s) && s.worker.AtCompensation? && s.worker.k > 0
    requires Owed(s.worker.tx.branches[s.worker.k - 1])
    requires KeyAt(s.worker.tx.branches, s.worker.k - 1, Compensate) in s.held
    ensures Order(AdvanceCompensation(s, s.worker.tx, s.worker.k))
  {
    var tx, k := s.worker.tx, s.worker.k;
    var s' := AdvanceCompensation(s, tx, k);
    TopIs(s'.worker.tx.branches, |tx.branches|, k - 1);
  }

  lemma ClaimedBranch(held: set<Key>, log: seq<LogEvent>, stored: seq<Branch>, bs: seq<Branch>, k: nat, b: Branch)
    requires 0 < k <= |bs| && Owed(bs[k - 1]) && b.id == bs[k - 1].id && KeyAt(bs, k - 1, Compensate) !in held
    requires SameDefinitions(bs, stored) && Clear(held, log, bs, k) && Pass(held, stored, bs, k, k, {})
    ensures ClearBelow(log, k)
    ensures var key := KeyAt(bs, k - 1, Compensate);
            && Clear(held + {key}, log, bs[k - 1 := b], k - 1)
            && Pass(held + {key}, stored, bs[k - 1 := b], k - 1, k - 1, {})
            && Pass(held + {key}, stored, bs[k - 1 := b], k - 1, k, {key})
  {
    assert Definition(bs[k - 1]) == Definition(stored[k - 1]);
    assert Top(bs, k) == k - 1;
    TopSame(bs, bs[k - 1 := b], k - 1);
  }

  /** The state after the barrier of branch k - 1 was claimed. */
  function Claimed(s: State, k: nat, wk: Worker): State
    requires 0 < k <= |s.stored.branches|
  {
    s.(held := s.held + {KeyAt(s.stored.branches, k - 1, Compensate)}, worker := wk)
  }

  lemma ClaimedCall(s: State, tx: Transaction, k: nat, b: Branch)
    requires Light(s) && Order(s) && s.worker == AtCompensation(tx, k) && k > 0
    requires Owed(tx.branches[k - 1]) && KeyAt(tx.branches, k - 1, Compensate) !in s.held && b.id == tx.branches[k - 1].id
    ensures var next := tx.(branches := tx.branches[k - 1 := b]);
            && WorkerOrder(Claimed(s, k, CompensationCall(next, k, Spawned)), CompensationCall(next, k, Spawned))
            && WorkerOrder(Claimed(s, k, AtCompensation(next, k - 1)), AtCompensation(next, k - 1))
  {
    ClaimedBranch(s.held, s.log, s.stored.branches, tx.branches, k, b);
    assert Definition(tx.branches[k - 1]) == Definition(s.stored.branches[k - 1]);
  }

  lemma ClaimedOrder(s: State)
    requires Light(s) && Order(s) && s.worker.AtCompensation? && s.worker.k > 0
    requires Owed(s.worker.tx.branches[s.worker.k - 1])
    requires KeyAt(s.worker.tx.branches, s.worker.k - 1, Compensate) !in s.held
    ensures Order(AdvanceCompensation(s, s.worker.tx, s.worker.k))
  {
    var tx, k := s.worker.tx, s.worker.k;
    var s' := AdvanceCompensation(s, tx, k);
    var b := s'.worker.tx.branches[k - 1];
    assert Definition(tx.branches[k - 1]) == Definition(s.stored.branches[k - 1]);
    ClaimedCall(s, tx, k, b);
    assert s' == Claimed(s, k, s'.worker);
    MoreHeld(s, s');
  }

  lemma MoreHeld(s: State, s': State)
    requires StoredOrder(s) && s'.stored == s.stored && s'.log == s.log && s.held <= s'.held
    ensures StoredOrder(s')
  {
  }

  lemma SucceededOrder(s: State, retryAt: nat)
    requires Light(s) && Order(s) && s.worker.CompensationCall? && s.worker.call == Replied(true)
    ensures Order(FinishCompensation(s, s.worker.tx, s.worker.k, true, retryAt))
  {
    var tx, k := s.worker.tx, s.worker.k;
    var s' := FinishCompensation(s, tx, k, true, retryAt);
    MoreHeld(s, s');
    var bs := s'.worker.tx.branches;
    assert Definition(tx.branches[k - 1]) == Definition(s.stored.branches[k - 1]);
    assert Clear(s.held, s.log, bs, k - 1);
    assert Pass(s.held, s.stored.branches, bs, k - 1, k - 1, {});
  }

  lemma FailedOrder(s: State, retryAt: nat)
    requires Light(s) && Order(s) && s.worker.CompensationCall? && s.worker.call == Replied(false)
    ensures Order(FinishCompensation(s, s.worker.tx, s.worker.k, false, retryAt))
  {
    var tx, k := s.worker.tx, s.worker.k;
    var s' := FinishCompensation(s, tx, k, false, retryAt);
    assert StoredOrder(s') by {
      assert Definition(tx.branches[k - 1]) == Definition(s.stored.branches[k - 1]);
      StoredStaysClear(s, s', k);
    }
    TopIs(s'.worker.tx.branches, |tx.branches|, k - 1);
  }

  lemma AdvanceOrder(s: State, retryAt: nat)
    requires Light(s) && Order(s)
    ensures Order(AdvanceStep(s, retryAt))
  {
    match s.worker
    case AtAction(_, _) => ActionOrder(s, retryAt);
    case ActionCall(_, _, _) => ActionOrder(s, retryAt);
    case AtCompensation(tx, k) =>
      if k == 0 {
      } else if !Owed(tx.branches[k - 1]) { PassedOrder(s);
      } else if KeyAt(tx.branches, k - 1, Compensate) in s.held { BlockedOrder(s);
      } else { ClaimedOrder(s); }
    case CompensationCall(_, _, Replied(ok)) => if ok { SucceededOrder(s, retryAt); } else { FailedOrder(s, retryAt); }
    case _ =>
  }

  // ---------------------------------------------------------------------
  // Calls

  lemma CallActionOrder(s: State, e: LogEvent, call: Call)
    requires Order(s) && s.worker.ActionCall? && !e.Stored? && e.op == Action
    ensures Order(s.(log := s.log + [e], worker := ActionCall(s.worker.tx, s.worker.k, call)))
  {
    var log := s.log + [e];
    QuietAppend(s.log, e);
    OrderedAppend(s.log, e);
    forall k ensures ClearBelow(log, k) { QuietIsClear(log, k); }
  }

  lemma ClearedBy(log: seq<LogEvent>, e: LogEvent, k: nat)
    requires ClearBelow(log, k + 1) && !e.Stored? && e.op == Compensate && e.index == k
    ensures ClearBelow(log + [e], k)
    ensures !(e.Answered? && e.ok) ==> ClearBelow(log + [e], k + 1)
  {
    OkAppend(log, e);
    forall i: nat | CompensationOk(log + [e], i) ensures i >= k && (!(e.Answered? && e.ok) ==> i >= k + 1) {
      assert CompensationOk(log, i) || (e.Answered? && e.ok && i == k);
    }
  }

  lemma CallCompensationOrder(s: State, e: LogEvent, call: Call)
    requires Light(s) && Order(s) && s.worker.CompensationCall? && s.worker.call != Replied(true)
    requires KeyAt(s.worker.tx.branches, s.worker.k - 1, Compensate) in s.held
    requires !e.Stored? && e.op == Compensate && e.index == s.worker.k - 1
    requires (e.Issued? && call == Open) || (e.Answered? && call == Replied(e.ok))
    ensures Order(s.(log := s.log + [e], worker := CompensationCall(s.worker.tx, s.worker.k, call)))
  {
    var tx, k := s.worker.tx, s.worker.k;
    var s' := s.(log := s.log + [e], worker := CompensationCall(tx, k, call));
    assert Definition(tx.branches[k - 1]) == Definition(s.stored.branches[k - 1]);
    OrderedAppend(s.log, e);
    ClearedBy(s.log, e, k - 1);
    StoredStaysClear(s, s', k);
  }

  lemma IssueOrder(s: State, at: nat)
    requires Inv(s) && Light(s) && Order(s)
    ensures Order(IssueStep(s, at))
  {
    if Target(s.worker).Some? && s.worker.call == Spawned {
      var (op, i) := Target(s.worker).value;
      var e := Issued(op, i, s.worker.tx.branches[i].id, at);
      if op == Action { CallActionOrder(s, e, Open); } else { CallCompensationOrder(s, e, Open); }
    }
  }

  lemma AnswerOrder(s: State, ok: bool)
    requires Inv(s) && Light(s) && Order(s)
    ensures Order(AnswerStep(s, ok))
  {
    if Target(s.worker).Some? && s.worker.call == Open {
      var (op, i) := Target(s.worker).value;
      var e := Answered(op, i, s.worker.tx.branches[i].id, ok);
      if op == Action { CallActionOrder(s, e, Replied(ok)); } else { CallCompensationOrder(s, e, Replied(ok)); }
    }
  }

  lemma StepOrder(s: State, e: Event)
    requires Inv(s) && Order(s) && !Step(s, e).hazard
    ensures Order(Step(s, e))
  {
    assert Light(s);
    match e
    case Begin(request) => if s.worker.Idle? { BeginOrder(s, request); }
    case Persist(time) => PersistOrder(s, time);
    case Advance(retryAt) => AdvanceOrder(s, retryAt);
    case Issue(at) => IssueOrder(s, at);
    case Answer(ok) => AnswerOrder(s, ok);
    case Crash =>
  }

  lemma {:induction false} HazardStays(s: State, es: seq<Event>)
    requires s.hazard
    ensures Exec(s, es).hazard
    decreases |es|
  {
    if es != [] { HazardStays(Step(s, es[0]), es[1..]); }
  }

  lemma {:induction false} ExecOrder(s: State, es: seq<Event>)
    requires Inv(s) && Order(s) && !Exec(s, es).hazard
    ensures Order(Exec(s, es))
    decreases |es|
  {
    if es != [] {
      if Step(s, es[0]).hazard { HazardStays(Step(s, es[0]), es[1..]); }
      StepKeeps(s, es[0]);
      StepOrder(s, es[0]);
      ExecOrder(Step(s, es[0]), es[1..]);
    }
  }

  // ---------------------------------------------------------------------
  // Whole runs

  /** Once a compensation was called, no action is called and no forward status is stored. */
  predicate NeverTurnsBack(log: seq<LogEvent>) {
    forall p, q :: 0 <= p < q < |log| && !Silent(log[p]) ==> !MovesForward(log[q])
  }

  /** Successful compensations have strictly decreasing indices. */
  predicate CompensatesDownwards(log: seq<LogEvent>) {
    forall p, q :: 0 <= p < q < |log| && IsCompensation(log[p]) && IsCompensation(log[q]) ==> log[q].index < log[p].index
  }

  predicate IsCompensation(e: LogEvent) { e.Answered? && e.op == Compensate && e.ok }

  /** Without a stop between a compensation call and the stored Aborting, the Saga unwinds in order
      and never turns back. */
  lemma UnwindsInOrder(s: State, es: seq<Event>)
    requires Fresh(s) && !Exec(s, es).hazard
    ensures NeverTurnsBack(Exec(s, es).log) && CompensatesDownwards(Exec(s, es).log)
  {
    ExecOrder(s, es);
    var log := Exec(s, es).log;
    forall p, q | 0 <= p < q < |log| && !Silent(log[p]) ensures !MovesForward(log[q]) {
      assert Ordered(log[q], log[..q]) && log[..q][p] == log[p];
    }
    forall p, q | 0 <= p < q < |log| && IsCompensation(log[p]) && IsCompensation(log[q])
      ensures log[q].index < log[p].index {
      assert Ordered(log[q], log[..q]) && log[..q][p] == log[p];
      assert CompensationOk(log[..q], log[p].index);
    }
  }

  /** A run without stops has no such stop, and loses no success. */
  lemma {:induction false} CrashFree(s: State, es: seq<Event>)
    requires !s.hazard && forall k :: 0 <= k < |es| ==> !es[k].Crash?
    ensures !Exec(s, es).hazard && Exec(s, es).lost == s.lost
    decreases |es|
  {
    if es != [] { CrashFree(Step(s, es[0]), es[1..]); }
  }

  // ---------------------------------------------------------------------
  // When an abort request is safe

  /** The abort decision is stored, or the pass has nothing to call. */
  predicate SafeToAbort(s: State) {
    GoesForward(s.stored.status) ==> !WouldCall(s.stored.branches, |s.stored.branches|, s.held)
  }

  /** Every abort request that a worker takes up finds SafeToAbort. */
  ghost predicate AbortsSafely(s: State, es: seq<Event>)
    decreases |es|
  {
    es != [] ==>
      && (es[0] == Begin(Abort) && s.worker.Idle? ==> SafeToAbort(s))
      && AbortsSafely(Step(s, es[0]), es[1..])
  }

  predicate DecidedFirst(s: State) {
    && (s.worker.Persisting? && GoesForward(s.worker.tx.status) ==> GoesForward(s.stored.status))
    && (GoesForward(s.stored.status) ==> Undisturbed(s))
  }

  predicate Undisturbed(s: State) {
    && NoCompensation(s.log) && !s.worker.CompensationCall?
    && (s.worker.AtCompensation? ==>
          s.worker.k <= |s.worker.tx.branches| && !WouldCall(s.worker.tx.branches, s.worker.k, s.held))
  }

  lemma {:induction false} WouldCallSame(a: seq<Branch>, b: seq<Branch>, k: nat, held: set<Key>)
    requires k <= |a| && |a| == |b| && forall i: nat :: i < k ==> a[i] == b[i]
    ensures WouldCall(a, k, held) == WouldCall(b, k, held)
  {
    if k > 0 {
      WouldCallSame(a, b, k - 1, held);
      WouldCallSame(a, b, k - 1, held + {KeyAt(a, k - 1, Compensate)});
    }
  }

  lemma AdvanceUndisturbed(s: State, retryAt: nat)
    requires Undisturbed(s)
    ensures Undisturbed(AdvanceStep(s, retryAt))
  {
    var s' := AdvanceStep(s, retryAt);
    if s.worker.AtCompensation? && s'.worker.AtCompensation? && s' != s {
      var tx, k := s.worker.tx, s.worker.k;
      if 0 < k <= |tx.branches| {
        WouldCallSame(tx.branches, s'.worker.tx.branches, k - 1, s'.held);
      }
    }
  }

  lemma AdvanceDecidesFirst(s: State, retryAt: nat)
    requires WorkerForward(s) && DecidedFirst(s)
    ensures DecidedFirst(AdvanceStep(s, retryAt))
  {
    if GoesForward(s.stored.status) { AdvanceUndisturbed(s, retryAt); }
  }

  /** Who goes forward does so on a record that does. */
  predicate WorkerForward(s: State) {
    && (s.worker.AtAction? || s.worker.ActionCall? ==> GoesForward(s.stored.status))
    && (s.worker.AtCompensation? || s.worker.CompensationCall? ==> s.worker.tx.status.Aborting?)
    && (s.worker.Persisting? && s.worker.next.EnterAbort? ==> s.worker.tx.status.Aborting?)
  }

  lemma PersistDecidesFirst(s: State, time: nat)
    requires WorkerForward(s) && DecidedFirst(s)
    ensures DecidedFirst(PersistStep(s, time))
  {
    if s.worker.Persisting? && GoesForward(s.worker.tx.status) {
      QuietAppend(s.log, Stored(s.worker.tx.status));
    }
  }

  lemma StepDecidesFirst(s: State, e: Event)
    requires WorkerForward(s) && DecidedFirst(s) && !s.hazard
    requires e == Begin(Abort) && s.worker.Idle? ==> SafeToAbort(s)
    ensures DecidedFirst(Step(s, e)) && !Step(s, e).hazard
  {
    match e
    case Persist(time) => PersistDecidesFirst(s, time);
    case Advance(retryAt) => AdvanceDecidesFirst(s, retryAt);
    case _ =>
  }

  lemma {:induction false} NoHazard(s: State, es: seq<Event>)
    requires Inv(s) && DecidedFirst(s) && !s.hazard && AbortsSafely(s, es)
    ensures !Exec(s, es).hazard
    decreases |es|
  {
    if es != [] {
      assert WorkerForward(s);
      StepDecidesFirst(s, es[0]);
      StepKeeps(s, es[0]);
      NoHazard(Step(s, es[0]), es[1..]);
    }
  }

  /** If every abort request is safe, the Saga unwinds in order and never turns back, wherever its
      passes stop. */
  lemma SafeAbortsSuffice(s: State, es: seq<Event>)
    requires Fresh(s) && AbortsSafely(s, es)
    ensures NeverTurnsBack(Exec(s, es).log) && CompensatesDownwards(Exec(s, es).log)
  {
    NoHazard(s, es);
    UnwindsInOrder(s, es);
  }

  /** Before anything succeeded, every abort request is safe. */
  lemma FreshIsSafe(s: State)
    requires Fresh(s)
    ensures SafeToAbort(s)
  {
    NothingOwed(s.stored.branches, |s.stored.branches|, s.held);
  }

  lemma {:induction false} NothingOwed(bs: seq<Branch>, k: nat, held: set<Key>)
    requires k <= |bs| && forall i: nat :: i < k ==> !Owed(bs[i])
    ensures !WouldCall(bs, k, held)
  {
    if k > 0 { NothingOwed(bs, k - 1, held); }
  }

  // ---------------------------------------------------------------------
  // What an unsafe abort request can do

  lemma {:induction false} ExecAppend(s: State, a: seq<Event>, b: seq<Event>)
    ensures Exec(s, a + b) == Exec(Exec(s, a), b)
    decreases |a|
  {
    if a == [] {
      assert a + b == b;
    } else {
      assert (a + b)[1..] == a[1..] + b;
      ExecAppend(Step(s, a[0]), a[1..], b);
    }
  }

  predicate AboutToCompensate(s: State) {
    && s.worker.CompensationCall? && s.worker.call == Spawned && 0 < s.worker.k <= |s.worker.tx.branches|
  }

  lemma {:induction false} ReachesCall(s: State) returns (es: seq<Event>)
    requires s.worker.AtCompensation? && s.worker.k <= |s.worker.tx.branches|
    requires WouldCall(s.worker.tx.branches, s.worker.k, s.held)
    ensures AboutToCompensate(Exec(s, es)) && Exec(s, es).stored == s.stored
    decreases s.worker.k
  {
    var tx, k := s.worker.tx, s.worker.k;
    var s' := Step(s, Advance(0));
    if s'.worker.CompensationCall? {
      es := [Advance(0)];
      assert Exec(s', es[1..]) == s';
    } else {
      WouldCallSame(tx.branches, s'.worker.tx.branches, k - 1, s'.held);
      var rest := ReachesCall(s');
      es := [Advance(0)] + rest;
      assert es[1..] == rest;
    }
  }

  const STOP_AND_RESTART: seq<Event> := [Issue(0), Crash, Begin(Start), Persist(0)]

  lemma RestartTurnsBack(s: State)
    requires AboutToCompensate(s) && GoesForward(s.stored.status)
    ensures !NeverTurnsBack(Exec(s, STOP_AND_RESTART).log)
  {
    var s1 := Step(s, Issue(0));
    var s2 := Step(s1, Crash);
    var s3 := Step(s2, Begin(Start));
    var s4 := Step(s3, Persist(0));
    RunFour(s, Issue(0), Crash, Begin(Start), Persist(0));
    assert s1.log == s.log + [s1.log[|s.log|]] && !Silent(s1.log[|s.log|]);
    assert s4.log == s1.log + [Stored(Succeeding)];
    assert s4.log[|s.log|] == s1.log[|s.log|] && MovesForward(s4.log[|s.log| + 1]);
  }

  lemma RunFour(s: State, a: Event, b: Event, c: Event, d: Event)
    ensures Exec(s, [a, b, c, d]) == Step(Step(Step(Step(s, a), b), c), d)
  {
    var s1 := Step(s, a);
    var s2 := Step(s1, b);
    var s3 := Step(s2, c);
    assert Exec(s3, [d]) == Exec(Step(s3, d), []);
    assert [c, d][1..] == [d];
    assert Exec(s2, [c, d]) == Exec(s3, [d]);
    assert [b, c, d][1..] == [c, d];
    assert Exec(s1, [b, c, d]) == Exec(s2, [c, d]);
    assert [a, b, c, d][1..] == [b, c, d];
  }

  /** Every unsafe abort request can end in a Saga that turns back: the pass calls a compensation,
      stops, and the next start pass stores Succeeding. */
  lemma UnsafeAbortTurnsBack(s: State) returns (es: seq<Event>)
    requires s.worker.Idle? && !SafeToAbort(s)
    ensures !NeverTurnsBack(Exec(s, [Begin(Abort)] + es).log)
  {
    var s' := Step(s, Begin(Abort));
    var reach := ReachesCall(s');
    es := reach + STOP_AND_RESTART;
    RestartTurnsBack(Exec(s', reach));
    ExecAppend(s', reach, STOP_AND_RESTART);
    assert ([Begin(Abort)] + es)[1..] == es;
  }

  const FIRST_ACTION: seq<Event> := [Begin(Start), Persist(0), Advance(0), Issue(0)]
  const STOP_AFTER_IT: seq<Event> := [Answer(true), Advance(0), Persist(0), Crash]

  predicate FirstActionOpen(s: State) {
    && s.worker.ActionCall? && s.worker.k == 0 && s.worker.call == Open
    && s.worker.tx.status.Succeeding? && |s.worker.tx.branches| == 1 && s.worker.tx.branches[0].compensate.Some?
    && Key(s.worker.tx.branches[0].id, Compensate) !in s.held
  }

  lemma FirstActionOpens(s: State)
    requires Fresh(s) && |s.stored.branches| == 1 && s.stored.branches[0].compensate.Some?
    ensures FirstActionOpen(Exec(s, FIRST_ACTION))
  {
    RunFour(s, Begin(Start), Persist(0), Advance(0), Issue(0));
    var s2 := Step(Step(s, Begin(Start)), Persist(0));
    assert s2.worker.AtAction? && s2.held == {} && s2.worker.tx.branches == s.stored.branches;
    var s3 := Step(s2, Advance(0));
    assert s3.worker.ActionCall? && s3.held == {Key(s.stored.branches[0].id, Action)};
  }

  lemma StopLeavesUnsafe(s: State)
    requires FirstActionOpen(s)
    ensures Exec(s, STOP_AFTER_IT).worker.Idle? && !SafeToAbort(Exec(s, STOP_AFTER_IT))
  {
    RunFour(s, Answer(true), Advance(0), Persist(0), Crash);
    var s2 := Step(Step(s, Answer(true)), Advance(0));
    assert s2.worker.Persisting? && s2.worker.tx.branches[0].status.Succeeded? && s2.held == s.held;
  }

  /** Such a request exists: an expired Saga is one after its first action succeeded. */
  lemma UnsafeIsReachable(s: State)
    requires Fresh(s) && |s.stored.branches| == 1 && s.stored.branches[0].compensate.Some?
    ensures var t := Exec(s, FIRST_ACTION + STOP_AFTER_IT); t.worker.Idle? && !SafeToAbort(t)
  {
    FirstActionOpens(s);
    StopLeavesUnsafe(Exec(s, FIRST_ACTION));
    ExecAppend(s, FIRST_ACTION, STOP_AFTER_IT);
  }
}
