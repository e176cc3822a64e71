/** All-or-nothing and dependency order for the concurrent Saga, over every interleaving. */
module ConcurrentSagaSafety {
  import opened Core
  import opened Edits
  import opened DependencyGraph
  import opened Layers
  import opened ConcurrentSaga

  predicate ActionOk(log: seq<LogEvent>, i: nat) { AnsweredOk(log, Action, i) }
  predicate CompensationOk(log: seq<LogEvent>, i: nat) { AnsweredOk(log, Compensate, i) }

  predicate Forward(bs: seq<Branch>) {
    forall i :: 0 <= i < |bs| ==> !bs[i].status.Compensating? && !bs[i].status.Skipped?
  }

  predicate AllSkipped(bs: seq<Branch>) {
    forall i :: 0 <= i < |bs| ==> bs[i].status.Skipped?
  }

  /** The decision to compensate has been stored. */
  predicate AbortStored(s: State) {
    s.stored.status.Aborting? || s.stored.status.Aborted? || s.stored.status.Failed?
  }

  // ---------------------------------------------------------------------
  // The invariant

  /** Every branch ever recorded as successful is still recorded so in bs, or was compensated. */
  ghost predicate Covers(s: State, bs: seq<Branch>) {
    forall i :: i in s.recorded && i < |bs| ==> Recorded(bs[i]) || CompensationOk(s.log, i)
  }

  /** bs records a success only where the action was answered with success. */
  ghost predicate Backed(s: State, bs: seq<Branch>) {
    forall i :: 0 <= i < |bs| && Recorded(bs[i]) ==> ActionOk(s.log, i)
  }

  ghost predicate WithinRecorded(s: State, bs: seq<Branch>) {
    forall i :: 0 <= i < |bs| && Recorded(bs[i]) ==> i in s.recorded
  }

  ghost predicate StatusOk(tx: Transaction) {
    && (tx.status.Submitted? || tx.status.Succeeding? ==> Forward(tx.branches))
    && (tx.status.Succeeded? ==> AllSucceeded(tx.branches))
    && (tx.status.Aborted? ==> AllSkipped(tx.branches))
  }

  ghost predicate StoredOk(s: State) {
    && WellFormed(s.graph)
    && SameDefinitions(s.stored.branches, s.graph)
    && RecordedClosed(s.stored.branches)
    && Backed(s, s.stored.branches)
    && WithinRecorded(s, s.stored.branches)
    && (forall i :: i in s.recorded ==> i < |s.graph|)
    && Covers(s, s.stored.branches)
    && StatusOk(s.stored)
  }

  /** A call respects the graph, given the log before it. */
  ghost predicate InOrder(s: State, e: LogEvent, before: seq<LogEvent>) {
    && (!e.Stored? && e.op == Compensate ==> AbortStored(s))
    && (e.Issued? ==>
          && e.index < |s.graph|
          && (e.op == Action ==>
                forall d: nat :: d < |s.graph| && DependsOn(s.graph, e.index, d) ==> ActionOk(before, d))
          && (e.op == Compensate ==>
                forall j: nat :: j < |s.graph| && DependsOn(s.graph, j, e.index) && j in s.recorded ==>
                  CompensationOk(before, j)))
  }

  ghost predicate LogOk(s: State) {
    forall p :: 0 <= p < |s.log| ==> InOrder(s, s.log[p], s.log[..p])
  }

  /** A worker's local copy. */
  ghost predicate Copy(s: State, tx: Transaction) {
    && SameDefinitions(tx.branches, s.graph)
    && RecordedClosed(tx.branches)
    && Backed(s, tx.branches)
    && tx.revision <= s.stored.revision
  }

  /** What holds of a copy whose revision is still the stored one. */
  ghost predicate FreshFacts(s: State, op: Operation, tx: Transaction) {
    && !s.stored.status.IsTerminal()
    && Covers(s, tx.branches)
    && (op == Action ==> s.stored.status.Submitted? || s.stored.status.Succeeding?)
    && (op == Compensate ==> WithinRecorded(s, tx.branches))
  }

  ghost predicate FreshOk(s: State, op: Operation, tx: Transaction) {
    tx.revision == s.stored.revision ==> FreshFacts(s, op, tx)
  }

  /** Inside the compensation loop, stale or not. */
  ghost predicate Entered(s: State, op: Operation, tx: Transaction) {
    op == Compensate ==> AbortStored(s) && Covers(s, tx.branches)
  }

  predicate LoopPhase(op: Operation, tx: Transaction) {
    || (op == Action && tx.status.Succeeding? && Forward(tx.branches))
    || (op == Compensate && tx.status.Aborting? && Unwinding(tx.branches))
  }

  ghost predicate InLoop(s: State, op: Operation, tx: Transaction) {
    Copy(s, tx) && LoopPhase(op, tx) && FreshOk(s, op, tx) && Entered(s, op, tx)
  }

  /** A branch that may be called now, as far as the local copy goes. */
  ghost predicate Callable(s: State, op: Operation, bs: seq<Branch>, i: nat) {
    && i < |s.graph| && |bs| == |s.graph|
    && (op == Action ==>
          && !Recorded(bs[i])
          && forall d: nat :: d < |s.graph| && DependsOn(s.graph, i, d) ==> Recorded(bs[d]))
    && (op == Compensate ==>
          && bs[i].status.Compensating?
          && forall j: nat :: j < |s.graph| && DependsOn(s.graph, j, i) ==> !bs[j].status.Compensating?)
  }

  ghost predicate LayerOk(s: State, op: Operation, bs: seq<Branch>, layer: set<nat>) {
    forall i :: i in layer ==> Callable(s, op, bs, i)
  }

  predicate PersistPhase(op: Operation, tx: Transaction, next: Then) {
    || (LoopPhase(op, tx) && !next.EnterAbort?)
    || (op == Action && tx.status.Succeeded? && AllSucceeded(tx.branches) && next.Return?)
    || (op == Action && tx.status.Aborting? && Unwinding(tx.branches) && next.EnterAbort?)
    || (op == Compensate && tx.status.Aborted? && AllSkipped(tx.branches) && next.Return?)
  }

  predicate SameStatuses(a: seq<Branch>, b: seq<Branch>) {
    |a| == |b| && forall i :: 0 <= i < |a| ==> a[i].status == b[i].status
  }

  /** The administrative edits keep every branch status. */
  predicate AdminEdit(stored: Transaction, tx: Transaction) {
    && !stored.status.IsTerminal()
    && SameStatuses(tx.branches, stored.branches)
    && (tx.status == stored.status || tx.status.Aborting? || tx.status.Failed?)
  }

  ghost predicate RepliesOk(s: State, op: Operation, calls: map<nat, Call>) {
    forall i :: i in calls && calls[i] == Replied(true) ==> AnsweredOk(s.log, op, i)
  }

  ghost predicate WorkerOk(s: State, wk: Worker) {
    match wk
    case Idle => true
    case Administering(tx) =>
      && SameDefinitions(tx.branches, s.graph)
      && tx.revision <= s.stored.revision
      && (tx.revision == s.stored.revision ==> AdminEdit(s.stored, tx))
    case Persisting(op, tx, next) =>
      && Copy(s, tx) && PersistPhase(op, tx, next) && FreshOk(s, op, tx)
      && (next.Invoke? ==> LayerOk(s, op, tx.branches, set i | i in next.layer))
    case AtLoop(op, tx) => InLoop(s, op, tx)
    case Claiming(op, tx, layer, k) =>
      InLoop(s, op, tx) && LayerOk(s, op, tx.branches, set i | i in layer) && k <= |layer|
    case Releasing(op, tx, toRelease) => true
    case Calling(op, tx, calls, _, exhausted) =>
      InLoop(s, op, tx) && LayerOk(s, op, tx.branches, calls.Keys) && RepliesOk(s, op, calls)
  }

  ghost predicate WorkersOk(s: State) {
    forall w :: w in s.workers ==> WorkerOk(s, s.workers[w])
  }

  ghost predicate Inv(s: State) {
    StoredOk(s) && LogOk(s) && WorkersOk(s)
  }

  // ---------------------------------------------------------------------
  // Facts that survive a longer log

  lemma AnsweredOkGrows(log: seq<LogEvent>, more: seq<LogEvent>, op: Operation, i: nat)
    requires AnsweredOk(log, op, i)
    ensures AnsweredOk(log + more, op, i)
  {
    var p :| 0 <= p < |log| && log[p].Answered? && log[p].op == op && log[p].index == i && log[p].ok;
    assert (log + more)[p] == log[p];
  }

  /** s' is s after calls were logged: the stored side is the same. */
  ghost predicate LogExtended(s: State, s': State) {
    && s'.graph == s.graph && s'.stored == s.stored && s'.recorded == s.recorded
    && |s.log| <= |s'.log| && s'.log[..|s.log|] == s.log
  }

  lemma WorkerGrows(s: State, s': State, wk: Worker)
    requires LogExtended(s, s') && WorkerOk(s, wk)
    ensures WorkerOk(s', wk)
  {
    match wk
    case Idle =>
    case Administering(_) =>
    case Persisting(op, tx, next) =>
    case AtLoop(op, tx) =>
    case Claiming(op, tx, layer, k) =>
    case Releasing(_, _, _) =>
    case Calling(op, tx, calls, _, _) =>
  }

  /** A step of worker w that leaves the stored side alone keeps the invariant when its own
      new state is fine and whatever it logged is in order. */
  lemma LocalStep(s: State, s': State, w: nat, wk: Worker)
    requires Inv(s) && LogExtended(s, s') && s'.workers == s.workers[w := wk]
    requires WorkerOk(s', wk) && LogOk(s')
    ensures Inv(s')
  {
    forall v | v in s'.workers ensures WorkerOk(s', s'.workers[v]) {
      if v != w { WorkerGrows(s, s', s.workers[v]); }
    }
  }

  /** A step that only moves worker w and changes barriers. */
  lemma Move(s: State, s': State, w: nat, wk: Worker)
    requires Inv(s) && WorkerOk(s, wk)
    requires s' == s.(held := s'.held, workers := s.workers[w := wk])
    ensures Inv(s')
  {
    WorkerGrows(s, s', wk);
    assert LogOk(s') by {
      forall p | 0 <= p < |s'.log| ensures InOrder(s', s'.log[p], s'.log[..p]) {
        assert InOrder(s, s.log[p], s.log[..p]);
      }
    }
    LocalStep(s, s', w, wk);
  }

  // ---------------------------------------------------------------------
  // Edits that keep what is recorded

  /** b has the same definitions and the same recorded branches as a. */
  predicate SameRecord(a: seq<Branch>, b: seq<Branch>) {
    && SameDefinitions(b, a)
    && forall i :: 0 <= i < |a| ==> (Recorded(a[i]) <==> Recorded(b[i]))
  }

  /** Copies that differ only in what SameRecord ignores. */
  lemma SameRecordCopy(s: State, op: Operation, tx: Transaction, tx': Transaction)
    requires Copy(s, tx) && SameRecord(tx.branches, tx'.branches) && tx'.revision == tx.revision
    ensures Copy(s, tx')
    ensures FreshOk(s, op, tx) ==> FreshOk(s, op, tx')
    ensures Entered(s, op, tx) ==> Entered(s, op, tx')
  {
  }

  // ---------------------------------------------------------------------
  // Requests

  lemma BeginOk(s: State, request: Request)
    requires Inv(s)
    ensures WorkerOk(s, BeginRequest(s.stored, request))
  {
    var tx := s.stored;
    match request
    case Start =>
      if tx.status.Submitted? || tx.status.Succeeding? {
        SameRecordCopy(s, Action, tx, tx.(status := Succeeding));
      }
    case Abort =>
      if tx.status.Submitted? || tx.status.Succeeding? || tx.status.Aborting? {
        SameRecordCopy(s, Compensate, tx, EnterAborting(tx));
      }
    case ScheduleAbort =>
    case ForceStop =>
    case ResetRetry(now) =>
  }

  // ---------------------------------------------------------------------
  // Accepted writes

  /** Once the abort is stored, an accepted write keeps it and records nothing new. */
  ghost predicate Freezes(s: State, tx: Transaction) {
    AbortStored(s) ==>
      && (tx.status.Aborting? || tx.status.Aborted? || tx.status.Failed?)
      && WithinRecorded(s, tx.branches)
  }

  /** What makes a write acceptable whoever sends it. */
  ghost predicate GoodWrite(s: State, tx: Transaction) {
    && SameDefinitions(tx.branches, s.graph)
    && RecordedClosed(tx.branches)
    && Backed(s, tx.branches)
    && Covers(s, tx.branches)
    && StatusOk(tx)
    && Freezes(s, tx)
    && tx.revision == s.stored.revision < MAX_U64
  }

  lemma AcceptStored(s: State, tx: Transaction, now: nat)
    requires StoredOk(s) && GoodWrite(s, tx)
    ensures StoredOk(Accept(s, tx, now))
  {
    var a := Accept(s, tx, now);
    forall op, i | AnsweredOk(s.log, op, i) ensures AnsweredOk(a.log, op, i) {
      AnsweredOkGrows(s.log, [Stored(tx.status)], op, i);
    }
  }

  lemma AcceptLog(s: State, tx: Transaction, now: nat)
    requires Inv(s) && GoodWrite(s, tx)
    ensures LogOk(Accept(s, tx, now))
  {
    var a := Accept(s, tx, now);
    if AbortStored(s) { assert a.recorded == s.recorded; }
    forall p | 0 <= p < |a.log| ensures InOrder(a, a.log[p], a.log[..p]) {
      if p < |s.log| {
        assert a.log[..p] == s.log[..p] && a.log[p] == s.log[p];
        assert InOrder(s, s.log[p], s.log[..p]);
      }
    }
  }

  lemma AcceptCovers(s: State, tx: Transaction, now: nat, bs: seq<Branch>)
    requires GoodWrite(s, tx)
    ensures Backed(s, bs) ==> Backed(Accept(s, tx, now), bs)
    ensures AbortStored(s) && Covers(s, bs) ==> Covers(Accept(s, tx, now), bs)
  {
    var a := Accept(s, tx, now);
    forall op, i | AnsweredOk(s.log, op, i) ensures AnsweredOk(a.log, op, i) {
      AnsweredOkGrows(s.log, [Stored(tx.status)], op, i);
    }
    if AbortStored(s) { assert a.recorded == s.recorded; }
  }

  /** The other workers are now stale. */
  lemma AcceptOthers(s: State, tx: Transaction, now: nat, wk: Worker)
    requires Inv(s) && GoodWrite(s, tx) && WorkerOk(s, wk)
    ensures WorkerOk(Accept(s, tx, now), wk)
  {
    var a := Accept(s, tx, now);
    match wk
    case Idle =>
    case Administering(_) =>
    case Persisting(op, t, next) =>
      AcceptCovers(s, tx, now, t.branches);
    case AtLoop(op, t) => AcceptCovers(s, tx, now, t.branches);
    case Claiming(op, t, layer, k) =>
      AcceptCovers(s, tx, now, t.branches);
    case Releasing(_, _, _) =>
    case Calling(op, t, calls, _, _) =>
      AcceptCovers(s, tx, now, t.branches);
      forall i | i in calls && calls[i] == Replied(true) ensures AnsweredOk(a.log, op, i) {
        AnsweredOkGrows(s.log, [Stored(tx.status)], op, i);
      }
  }

  lemma AcceptStep(s: State, tx: Transaction, now: nat, w: nat, wk: Worker)
    requires Inv(s) && GoodWrite(s, tx) && WorkerOk(Accept(s, tx, now), wk)
    ensures Inv(Goto(Accept(s, tx, now), w, wk))
  {
    var a := Accept(s, tx, now);
    var s' := Goto(a, w, wk);
    AcceptStored(s, tx, now);
    AcceptLog(s, tx, now);
    assert StoredOk(s') && LogOk(s');
    forall v | v in s'.workers ensures WorkerOk(s', s'.workers[v]) {
      if v != w { AcceptOthers(s, tx, now, s.workers[v]); }
    }
  }

  lemma ContinueOk(s: State, op: Operation, tx: Transaction, next: Then, now: nat)
    requires Inv(s) && WorkerOk(s, Persisting(op, tx, next)) && tx.revision == s.stored.revision < MAX_U64
    ensures WorkerOk(Accept(s, tx, now), Continue(op, tx.(revision := Next64(tx.revision)), next))
  {
    var a := Accept(s, tx, now);
    var t := tx.(revision := Next64(tx.revision));
    AcceptStored(s, tx, now);
    assert Copy(a, t);
    match next
    case Loop =>
    case Return =>
    case EnterAbort =>
      SameRecordCopy(a, Compensate, t, EnterAborting(t));
    case Invoke(layer) =>
      assert (map i | i in layer :: Spawned).Keys == set i | i in layer;
  }

  lemma AdminGoodWrite(s: State, tx: Transaction)
    requires Inv(s) && WorkerOk(s, Administering(tx)) && tx.revision == s.stored.revision < MAX_U64
    ensures GoodWrite(s, tx)
  {
  }

  lemma SagaGoodWrite(s: State, op: Operation, tx: Transaction, next: Then)
    requires Inv(s) && WorkerOk(s, Persisting(op, tx, next)) && tx.revision == s.stored.revision < MAX_U64
    ensures GoodWrite(s, tx)
  {
  }

  lemma PersistKeeps(s: State, w: nat, now: nat)
    requires Inv(s) && s.stored.revision < MAX_U64
    ensures Inv(PersistStep(s, w, now))
  {
    var wk := WorkerAt(s, w);
    if wk.Persisting? || wk.Administering? {
      assert WorkerOk(s, wk);
      if wk.tx.revision != s.stored.revision {
        Move(s, Goto(s, w, Idle), w, Idle);
      } else if wk.Administering? {
        AdminGoodWrite(s, wk.tx);
        AcceptStep(s, wk.tx, now, w, Idle);
      } else {
        SagaGoodWrite(s, wk.op, wk.tx, wk.next);
        ContinueOk(s, wk.op, wk.tx, wk.next, now);
        AcceptStep(s, wk.tx, now, w, Continue(wk.op, wk.tx.(revision := Next64(wk.tx.revision)), wk.next));
      }
    }
  }

  // ---------------------------------------------------------------------
  // Steps inside a pass

  lemma ReadyCallable(s: State, op: Operation, tx: Transaction, i: nat)
    requires StoredOk(s) && InLoop(s, op, tx)
    requires op == Action ==> ActionReady(tx.branches, i)
    requires op == Compensate ==> CompensationReady(tx.branches, i)
    ensures Callable(s, op, tx.branches, i)
  {
  }

  lemma AdvanceOk(s: State, op: Operation, tx: Transaction)
    requires Inv(s) && InLoop(s, op, tx)
    ensures WorkerOk(s, AdvanceLoop(op, tx))
  {
    if op == Action {
      if AllSucceeded(tx.branches) {
        SameRecordCopy(s, op, tx, tx.(status := TransactionStatus.Succeeded));
      } else {
        forall i | i in ReadyActions(tx.branches) ensures Callable(s, op, tx.branches, i) {
          ReadyCallable(s, op, tx, i);
        }
      }
    } else {
      if NoneCompensating(tx.branches) {
        SameRecordCopy(s, op, tx, tx.(status := Aborted));
      } else {
        forall i | i in ReadyCompensations(tx.branches) ensures Callable(s, op, tx.branches, i) {
          ReadyCallable(s, op, tx, i);
        }
      }
    }
  }

  /** Only attempts differ. */
  lemma CountedOk(s: State, op: Operation, tx: Transaction, i: nat, layer: set<nat>)
    requires InLoop(s, op, tx) && LayerOk(s, op, tx.branches, layer) && i < |tx.branches|
    ensures var t := tx.(branches := tx.branches[i := CountAttempt(tx.branches[i])]);
            InLoop(s, op, t) && LayerOk(s, op, t.branches, layer)
  {
    var t := tx.(branches := tx.branches[i := CountAttempt(tx.branches[i])]);
    SameRecordCopy(s, op, tx, t);
    forall k | k in layer ensures Callable(s, op, t.branches, k) { assert Callable(s, op, tx.branches, k); }
  }

  lemma RunningOk(s: State, tx: Transaction, layer: seq<nat>)
    requires InLoop(s, Action, tx) && LayerOk(s, Action, tx.branches, set i | i in layer)
    ensures WorkerOk(s, Persisting(Action, MarkRunning(tx, layer), Invoke(layer)))
  {
    var t := MarkRunning(tx, layer);
    forall i | 0 <= i < |tx.branches| ensures Recorded(tx.branches[i]) <==> Recorded(t.branches[i]) {
      if i in layer { assert Callable(s, Action, tx.branches, i); }
    }
    assert SameRecord(tx.branches, t.branches);
    SameRecordCopy(s, Action, tx, t);
    forall i | i in layer ensures Callable(s, Action, t.branches, i) { assert Callable(s, Action, tx.branches, i); }
  }

  lemma ClaimKeeps(s: State, w: nat)
    requires Inv(s)
    ensures Inv(ClaimStep(s, w))
  {
    var s' := ClaimStep(s, w);
    var wk := WorkerAt(s, w);
    if wk.Claiming? {
      assert WorkerOk(s, wk);
      var Claiming(op, tx, layer, k) := wk;
      if k < |layer| && layer[k] < |tx.branches| {
        if Decide(s.held, KeyOf(tx, layer[k], op)) == Execute && op == Compensate {
          CountedOk(s, op, tx, layer[k], set i | i in layer);
        }
      } else if k == |layer| && op == Action {
        RunningOk(s, tx, layer);
      }
      if s' != s {
        Move(s, s', w, s'.workers[w]);
      }
    }
  }

  lemma LogAppend(s: State, s': State, e: LogEvent)
    requires LogOk(s) && s'.log == s.log + [e] && InOrder(s, e, s.log)
    requires s'.graph == s.graph && s'.stored == s.stored && s'.recorded == s.recorded
    ensures LogOk(s')
  {
    forall p | 0 <= p < |s'.log| ensures InOrder(s', s'.log[p], s'.log[..p]) {
      if p < |s.log| {
        assert s'.log[p] == s.log[p] && s'.log[..p] == s.log[..p];
        assert InOrder(s, s.log[p], s.log[..p]);
      } else {
        assert s'.log[..p] == s.log;
      }
    }
  }

  lemma IssueLog(s: State, wk: Worker, i: nat, at: nat, s': State)
    requires StoredOk(s) && LogOk(s) && WorkerOk(s, wk) && CallAt(wk, i, Spawned)
    requires s'.log == s.log + [Issued(wk.op, i, wk.tx.branches[i].id, at)]
    requires s'.graph == s.graph && s'.stored == s.stored && s'.recorded == s.recorded
    ensures LogOk(s')
  {
    assert Callable(s, wk.op, wk.tx.branches, i);
    LogAppend(s, s', Issued(wk.op, i, wk.tx.branches[i].id, at));
  }

  lemma IssueKeeps(s: State, w: nat, i: nat, at: nat)
    requires Inv(s)
    ensures Inv(IssueStep(s, w, i, at))
  {
    var wk := WorkerAt(s, w);
    if CallAt(wk, i, Spawned) && HasUrl(wk.op, wk.tx.branches[i]) {
      assert WorkerOk(s, wk);
      var s' := IssueStep(s, w, i, at);
      IssueLog(s, wk, i, at, s');
      assert LogExtended(s, s');
      WorkerGrows(s, s', wk.(calls := wk.calls[i := Open]));
      LocalStep(s, s', w, wk.(calls := wk.calls[i := Open]));
    }
  }

  lemma AnswerKeeps(s: State, w: nat, i: nat, ok: bool)
    requires Inv(s)
    ensures Inv(AnswerStep(s, w, i, ok))
  {
    var wk := WorkerAt(s, w);
    if CallAt(wk, i, Open) {
      assert WorkerOk(s, wk);
      var s' := AnswerStep(s, w, i, ok);
      var e := Answered(wk.op, i, wk.tx.branches[i].id, ok);
      LogAppend(s, s', e);
      assert LogExtended(s, s');
      WorkerGrows(s, s', wk);
      assert wk.calls[i := Replied(ok)].Keys == wk.calls.Keys;
      if ok { assert s'.log[|s.log|] == e; assert AnsweredOk(s'.log, wk.op, i); }
      LocalStep(s, s', w, wk.(calls := wk.calls[i := Replied(ok)]));
    }
  }

  lemma JoinedActionOk(s: State, tx: Transaction, i: nat)
    requires StoredOk(s) && InLoop(s, Action, tx) && Callable(s, Action, tx.branches, i) && ActionOk(s.log, i)
    ensures InLoop(s, Action, Put(tx, i, BranchStatus.Succeeded, None))
  {
  }

  lemma JoinedCompensationOk(s: State, tx: Transaction, i: nat)
    requires StoredOk(s) && InLoop(s, Compensate, tx) && Callable(s, Compensate, tx.branches, i)
    requires CompensationOk(s.log, i)
    ensures InLoop(s, Compensate, Put(tx, i, BranchStatus.Skipped, None))
  {
    var t := Put(tx, i, BranchStatus.Skipped, None);
    SameGraph(tx.branches, s.graph);
    forall k: nat | k < |tx.branches| && DependsOn(tx.branches, k, i) ensures !Recorded(tx.branches[k]) {
      assert DependsOn(s.graph, k, i);
      assert !tx.branches[k].status.Compensating?;
    }
  }

  /** The rest of the layer stays callable when branch i is settled. */
  lemma LayerAfterPut(s: State, op: Operation, tx: Transaction, i: nat, status: BranchStatus, retry: Option<nat>,
                      layer: set<nat>)
    requires LayerOk(s, op, tx.branches, layer) && i < |tx.branches| && i in layer
    requires op == Action ==> status.Succeeded? || status.Failed?
    requires op == Compensate ==> status.Skipped? || status.Compensating?
    ensures LayerOk(s, op, Put(tx, i, status, retry).branches, layer - {i})
  {
  }

  lemma JoinFailedOk(s: State, op: Operation, tx: Transaction, i: nat, retryAt: nat)
    requires InLoop(s, op, tx) && Callable(s, op, tx.branches, i)
    ensures InLoop(s, op, Put(tx, i, if op == Action then BranchStatus.Failed else BranchStatus.Compensating, Some(retryAt)))
  {
  }

  lemma JoinOkKeeps(s: State, wk: Worker, i: nat)
    requires StoredOk(s) && WorkerOk(s, wk) && CallAt(wk, i, Replied(true))
    ensures WorkerOk(s, JoinOk(wk, i))
  {
    assert Callable(s, wk.op, wk.tx.branches, i);
    if wk.op == Action { JoinedActionOk(s, wk.tx, i); } else { JoinedCompensationOk(s, wk.tx, i); }
    var wk' := JoinOk(wk, i);
    LayerAfterPut(s, wk.op, wk.tx, i, wk'.tx.branches[i].status, None, wk.calls.Keys);
    assert wk'.calls.Keys == wk.calls.Keys - {i};
  }

  lemma JoinFailedKeeps(s: State, wk: Worker, i: nat, retryAt: nat)
    requires StoredOk(s) && WorkerOk(s, wk) && CallAt(wk, i, Replied(false))
    ensures WorkerOk(s, JoinFailed(wk, i, retryAt))
  {
    assert Callable(s, wk.op, wk.tx.branches, i);
    JoinFailedOk(s, wk.op, wk.tx, i, retryAt);
    var wk' := JoinFailed(wk, i, retryAt);
    LayerAfterPut(s, wk.op, wk.tx, i, wk'.tx.branches[i].status, Some(retryAt), wk.calls.Keys);
    assert wk'.calls.Keys == wk.calls.Keys - {i};
  }

  lemma JoinKeeps(s: State, w: nat, i: nat, retryAt: nat)
    requires Inv(s)
    ensures Inv(JoinStep(s, w, i, retryAt))
  {
    var s' := JoinStep(s, w, i, retryAt);
    var wk := WorkerAt(s, w);
    if s' != s {
      assert WorkerOk(s, wk);
      if CallAt(wk, i, Replied(true)) {
        JoinOkKeeps(s, wk, i);
        Move(s, s', w, JoinOk(wk, i));
      } else {
        JoinFailedKeeps(s, wk, i, retryAt);
        Move(s, s', w, JoinFailed(wk, i, retryAt));
      }
    }
  }

  lemma EndLayerKeeps(s: State, w: nat)
    requires Inv(s)
    ensures Inv(EndLayerStep(s, w))
  {
    var s' := EndLayerStep(s, w);
    var wk := WorkerAt(s, w);
    if wk.Calling? && wk.calls == map[] {
      assert WorkerOk(s, wk);
      if wk.op == Action && wk.exhausted {
        SameRecordCopy(s, wk.op, wk.tx, Exhaust(wk.tx));
      }
      assert WorkerOk(s, s'.workers[w]);
      Move(s, s', w, s'.workers[w]);
    }
  }

  lemma StepKeeps(s: State, e: Event)
    requires Inv(s) && s.stored.revision < MAX_U64
    ensures Inv(Step(s, e))
  {
    var s' := Step(s, e);
    match e
    case Begin(w, request) =>
      if WorkerAt(s, w).Idle? {
        BeginOk(s, request);
        Move(s, s', w, s'.workers[w]);
      }
    case Persist(w, now) => PersistKeeps(s, w, now);
    case Advance(w) =>
      var wk := WorkerAt(s, w);
      if wk.AtLoop? {
        assert WorkerOk(s, wk);
        AdvanceOk(s, wk.op, wk.tx);
        Move(s, s', w, s'.workers[w]);
      }
    case Claim(w) => ClaimKeeps(s, w);
    case Release(w) => if s' != s { Move(s, s', w, s'.workers[w]); }
    case Issue(w, i, at) => IssueKeeps(s, w, i, at);
    case Answer(w, i, ok) => AnswerKeeps(s, w, i, ok);
    case Join(w, i, retryAt) => JoinKeeps(s, w, i, retryAt);
    case EndLayer(w) => EndLayerKeeps(s, w);
    case Crash(w) => Move(s, s', w, Idle);
  }

  // ---------------------------------------------------------------------
  // Whole runs

  lemma {:induction false} ExecMonotone(s: State, es: seq<Event>)
    ensures s.recorded <= Exec(s, es).recorded
    ensures s.log <= Exec(s, es).log
    ensures s.stored.revision <= Exec(s, es).stored.revision
    ensures Exec(s, es).graph == s.graph
    decreases |es|
  {
    if es != [] {
      ExecMonotone(Step(s, es[0]), es[1..]);
    }
  }

  lemma {:induction false} ExecKeeps(s: State, es: seq<Event>)
    requires Inv(s) && Exec(s, es).stored.revision < MAX_U64
    ensures Inv(Exec(s, es))
    decreases |es|
  {
    if es != [] {
      ExecMonotone(s, es);
      StepKeeps(s, es[0]);
      ExecKeeps(Step(s, es[0]), es[1..]);
    }
  }

  lemma {:induction false} ExecSplit(s: State, es: seq<Event>, k: nat)
    requires k <= |es|
    ensures Exec(s, es) == Exec(Exec(s, es[..k]), es[k..])
    decreases k
  {
    if k == 0 {
      assert es[0..] == es;
    } else {
      assert es[..k][1..] == es[1..][..k - 1] && es[1..][k - 1..] == es[k..];
      ExecSplit(Step(s, es[0]), es[1..], k - 1);
    }
  }

  /** Reachable states. */
  lemma RunInv(s: State, es: seq<Event>)
    requires ConcurrentSaga.Submitted(s) && Exec(s, es).stored.revision < MAX_U64
    ensures Inv(Exec(s, es))
  {
    ExecKeeps(s, es);
  }

  /** All or nothing: a stored Succeeded means every action succeeded; a stored Aborted means every
      branch is Skipped and each branch stored as successful at any earlier point k of the run had
      its compensation answered with success. */
  lemma AllOrNothing(s: State, es: seq<Event>, k: nat, i: nat)
    requires ConcurrentSaga.Submitted(s) && k <= |es| && i < |s.graph|
    requires Exec(s, es).stored.revision < MAX_U64
    ensures |Exec(s, es).stored.branches| == |Exec(s, es[..k]).stored.branches| == |s.graph|
    ensures Exec(s, es).stored.status.Succeeded? ==>
              Exec(s, es).stored.branches[i].status.Succeeded? && AnsweredOk(Exec(s, es).log, Action, i)
    ensures Exec(s, es).stored.status.Aborted? ==>
              && Exec(s, es).stored.branches[i].status.Skipped?
              && (Recorded(Exec(s, es[..k]).stored.branches[i]) ==> AnsweredOk(Exec(s, es).log, Compensate, i))
  {
    ExecSplit(s, es, k);
    var mid := Exec(s, es[..k]);
    ExecMonotone(s, es[..k]);
    ExecMonotone(mid, es[k..]);
    RunInv(s, es[..k]);
    RunInv(s, es);
    var end := Exec(s, es);
    if end.stored.status.Succeeded? { assert ActionOk(end.log, i); }
    if end.stored.status.Aborted? && Recorded(mid.stored.branches[i]) {
      assert i in mid.recorded && i in end.recorded;
      assert CompensationOk(end.log, i);
    }
  }

  /** Dependency order of calls: an action is called only after the actions of all its dependencies
      were answered with success; a compensation only after the compensation of every dependent that
      is on record as successful at any point of the run, before or after the call. */
  lemma CallsInOrder(s: State, es: seq<Event>, p: nat, j: nat)
    requires ConcurrentSaga.Submitted(s) && Exec(s, es).stored.revision < MAX_U64
    requires p < |Exec(s, es).log| && Exec(s, es).log[p].Issued? && j < |s.graph|
    ensures var e := Exec(s, es).log[p];
            && e.index < |s.graph|
            && (e.op == Action && DependsOn(s.graph, e.index, j) ==> AnsweredOk(Exec(s, es).log[..p], Action, j))
            && (e.op == Compensate && DependsOn(s.graph, j, e.index) && j in Exec(s, es).recorded ==>
                  AnsweredOk(Exec(s, es).log[..p], Compensate, j))
  {
    RunInv(s, es);
    ExecMonotone(s, es);
    var end := Exec(s, es);
    assert InOrder(end, end.log[p], end.log[..p]);
  }

  predicate StoredAt(s: State, es: seq<Event>, k: nat, i: nat) {
    k <= |es| && i < |Exec(s, es[..k]).stored.branches| && Recorded(Exec(s, es[..k]).stored.branches[i])
  }

  lemma {:induction false} RecordedWasStored(s: State, es: seq<Event>, i: nat) returns (k: nat)
    requires i in Exec(s, es).recorded && i !in s.recorded
    ensures StoredAt(s, es, k, i)
    decreases |es|
  {
    var next := Step(s, es[0]);
    if i in next.recorded {
      k := 1;
      assert es[..1] == [es[0]];
      assert Exec(s, es[..1]) == next;
    } else {
      k := RecordedWasStored(next, es[1..], i);
      assert es[..k + 1][1..] == es[1..][..k];
      k := k + 1;
    }
  }

  /** The recorded set is exactly what was ever stored as successful. */
  lemma RecordedIffStored(s: State, es: seq<Event>, i: nat)
    requires ConcurrentSaga.Submitted(s) && Exec(s, es).stored.revision < MAX_U64
    ensures i in Exec(s, es).recorded <==> exists k: nat :: StoredAt(s, es, k, i)
  {
    if i in Exec(s, es).recorded { var k := RecordedWasStored(s, es, i); }
    if k: nat :| StoredAt(s, es, k, i) {
      ExecSplit(s, es, k);
      ExecMonotone(Exec(s, es[..k]), es[k..]);
      RunInv(s, es[..k]);
    }
  }

  /** A compensation pass is never stuck: whenever its loop finds no branch ready, nothing is left to
      compensate. */
  lemma NeverStuckCompensating(s: State, es: seq<Event>, w: nat, tx: Transaction)
    requires ConcurrentSaga.Submitted(s) && Exec(s, es).stored.revision < MAX_U64
    requires WorkerAt(Exec(s, es), w) == AtLoop(Compensate, tx)
    ensures ReadyCompensations(tx.branches) == [] <==> NoneCompensating(tx.branches)
  {
    RunInv(s, es);
    var end := Exec(s, es);
    assert WorkerOk(end, end.workers[w]);
    SameGraph(tx.branches, end.graph);
    CompensationLayerEmptyOnlyWhenDone(tx.branches);
  }

  /** The stored successes, and later the stored compensations still to run, stay closed under
      dependencies. */
  lemma StoredSetsClosed(s: State, es: seq<Event>)
    requires ConcurrentSaga.Submitted(s) && Exec(s, es).stored.revision < MAX_U64
    ensures RecordedClosed(Exec(s, es).stored.branches)
    ensures Exec(s, es).stored.status.Submitted? || Exec(s, es).stored.status.Succeeding? ==>
              SucceededClosed(Exec(s, es).stored.branches)
    ensures WellFormed(Exec(s, es).stored.branches)
  {
    RunInv(s, es);
    SameGraph(Exec(s, es).stored.branches, Exec(s, es).graph);
  }

  /** A stored terminal record is never changed again. */
  lemma {:induction false} TerminalIsFinal(s: State, es: seq<Event>)
    requires Inv(s) && s.stored.status.IsTerminal() && Exec(s, es).stored.revision < MAX_U64
    ensures Exec(s, es).stored == s.stored
    decreases |es|
  {
    if es != [] {
      ExecMonotone(s, es);
      StepKeeps(s, es[0]);
      assert Step(s, es[0]).stored == s.stored by {
        if es[0].Persist? && es[0].worker in s.workers { assert WorkerOk(s, s.workers[es[0].worker]); }
      }
      TerminalIsFinal(Step(s, es[0]), es[1..]);
    }
  }
}
