/** When a concurrent Saga that nobody aborts is aborted. In every interleaving of workers, wherever they
    stop, only after some action failed as often as its retry limit allows; and if one worker runs its
    passes without stops, exactly then. */
module ConcurrentSagaRetries {
  import opened Core
  import opened Edits
  import opened Attempts
  import opened DependencyGraph
  import opened Layers
  import opened ConcurrentSaga

  predicate AbortStatus(status: TransactionStatus) { status.Aborting? || status.Aborted? }
  predicate GoesForward(status: TransactionStatus) { status.Submitted? || status.Succeeding? }

  /** Nobody asks for an abort, other than for one that is decided. */
  predicate NobodyAborts(s: State, es: seq<Event>)
    decreases |es|
  {
    es != [] ==>
      && (es[0].Begin? && (es[0].request.Abort? || es[0].request.ScheduleAbort?) && WorkerAt(s, es[0].worker).Idle? ==>
            !GoesForward(s.stored.status))
      && NobodyAborts(Step(s, es[0]), es[1..])
  }

  // ---------------------------------------------------------------------
  // What records and copies show. `clean` stands for runs of one worker without stops.

  datatype Run = Run(start: seq<Branch>, options: Options, clean: bool)

  /** The attempts that a branch shows, against the failures in the log. */
  predicate Shows(r: Run, log: seq<LogEvent>, b: Branch, i: nat, pending: nat)
    requires i < |r.start|
  {
    var tried := Tried(r.start, log, Action, i) + pending;
    && b.id == r.start[i].id
    && (!b.status.Succeeded? ==> b.attempts <= tried && (r.clean ==> b.attempts == Sat32(tried)))
    && (r.clean && !b.status.Succeeded? && !b.status.Running? && Failures(log, Action, i) > 0 ==>
          b.status.Failed? && b.nextRetry.Some?)
  }

  predicate Failed(calls: map<nat, Call>, i: nat) { i in calls && calls[i] == Replied(false) }

  /** A running branch has one attempt more than failures, until its failure is in the log. */
  function Pending(b: Branch, calls: map<nat, Call>, i: nat): nat {
    if b.status.Running? && !Failed(calls, i) then 1 else 0
  }

  predicate Counted(r: Run, log: seq<LogEvent>, bs: seq<Branch>, calls: map<nat, Call>) {
    && |bs| == |r.start|
    && forall i: nat :: i < |bs| ==> Shows(r, log, bs[i], i, Pending(bs[i], calls, i))
  }

  predicate SpentNow(r: Run, log: seq<LogEvent>) { Spent(r.start, log, Action, Allowed(r.options, 1)) }

  predicate NoneSpent(r: Run, log: seq<LogEvent>, calls: map<nat, Call>) {
    forall i: nat :: i < |r.start| && !Failed(calls, i) ==> Tried(r.start, log, Action, i) < Allowed(r.options, 1)
  }

  /** An action barrier is held only for a success, or for a branch of the layer. */
  ghost predicate HeldForSuccess(r: Run, s: State, layer: set<nat>) {
    forall key :: key in s.held && key.op == Action ==> OkFor(s.log, key) || Covers(r, layer, key.branch)
  }

  predicate Covers(r: Run, layer: set<nat>, id: string) {
    exists i :: i in layer && i < |r.start| && r.start[i].id == id
  }

  function Elements(s: seq<nat>): set<nat> { set i | i in s }

  predicate RunningIn(bs: seq<Branch>, layer: set<nat>) {
    forall i: nat :: i < |bs| && bs[i].status.Running? ==> i in layer
  }

  /** Nothing is decided, and only the layer is in progress. */
  ghost predicate Undecided(r: Run, s: State, bs: seq<Branch>, layer: set<nat>) {
    && Counted(r, s.log, bs, map[])
    && (r.clean ==> NoneSpent(r, s.log, map[]) && HeldForSuccess(r, s, layer) && RunningIn(bs, layer))
  }

  ghost predicate RecordOk(r: Run, s: State, tx: Transaction, layer: set<nat>) {
    && tx.options == r.options
    && (AbortStatus(tx.status) ==> SpentNow(r, s.log))
    && (GoesForward(tx.status) || tx.status.Succeeded? ==> Undecided(r, s, tx.branches, layer))
  }

  // ---------------------------------------------------------------------
  // What workers may hold

  /** A forward worker's copy shows what the record shows. */
  predicate InSync(s: State, tx: Transaction) {
    tx.branches == s.stored.branches && tx.options == s.stored.options && s.stored.status.Succeeding?
  }

  ghost predicate ForwardOk(r: Run, s: State, tx: Transaction, layer: set<nat>) {
    RecordOk(r, s, tx, layer) && tx.status.Succeeding? && (r.clean ==> InSync(s, tx))
  }

  ghost predicate CallingOk(r: Run, s: State, tx: Transaction, calls: map<nat, Call>, exhausted: bool) {
    && tx.options == r.options && tx.status.Succeeding?
    && Counted(r, s.log, tx.branches, calls)
    && (forall i :: i in calls ==> i < |tx.branches| && tx.branches[i].status.Running?)
    && (exhausted ==> SpentNow(r, s.log))
    && (r.clean ==>
          && (!exhausted ==> NoneSpent(r, s.log, calls))
          && HeldForSuccess(r, s, calls.Keys) && RunningIn(tx.branches, calls.Keys)
          && forall i :: i in calls && calls[i] == Replied(true) ==> OkFor(s.log, KeyOf(tx, i, Action)))
  }

  ghost predicate PersistOk(r: Run, s: State, tx: Transaction, next: Then) {
    && RecordOk(r, s, tx, if next.Invoke? then Elements(next.layer) else {})
    && (next.Loop? ==> tx.status.Succeeding?) && (next.EnterAbort? ==> tx.status.Aborting?)
    && (next.Invoke? ==> tx.status.Succeeding?)
    && (next.Invoke? ==> forall i :: i in next.layer ==> i < |tx.branches| && tx.branches[i].status.Running?)
  }

  /** What holds of a forward worker whose copy is current. */
  ghost predicate CurrentOk(r: Run, s: State, wk: Worker) {
    match wk
    case Persisting(_, tx, next) => PersistOk(r, s, tx, next)
    case AtLoop(_, tx) => ForwardOk(r, s, tx, {})
    case Claiming(_, tx, layer, k) =>
      && ForwardOk(r, s, tx, if k <= |layer| then Elements(layer[..k]) else {})
      && (forall i :: i in layer ==> i < |tx.branches| && (tx.branches[i].status.Pending? || tx.branches[i].status.Failed?))
      && k <= |layer|
    case Calling(_, tx, calls, _, exhausted) => CallingOk(r, s, tx, calls, exhausted)
    case _ => true
  }

  lemma UncleanAnyLayer(r: Run, s: State, tx: Transaction, layer: set<nat>, layer': set<nat>)
    requires RecordOk(r, s, tx, layer) && !r.clean
    ensures RecordOk(r, s, tx, layer')
  {
  }

  // ---------------------------------------------------------------------
  // Growing the log

  lemma CountedGrows(r: Run, log: seq<LogEvent>, e: LogEvent, bs: seq<Branch>)
    requires Counted(r, log, bs, map[])
    requires r.clean ==> !FailureOfAction(e)
    ensures Counted(r, log + [e], bs, map[])
  {
    FailuresAppend(log, e);
    forall i: nat | i < |bs| ensures Shows(r, log + [e], bs[i], i, Pending(bs[i], map[], i)) {
      assert Shows(r, log, bs[i], i, Pending(bs[i], map[], i));
    }
  }

  predicate FailureOfAction(e: LogEvent) { e.Answered? && !e.ok && e.op == Action }

  lemma NoneSpentSame(r: Run, log: seq<LogEvent>, e: LogEvent, calls: map<nat, Call>)
    requires NoneSpent(r, log, calls) && !FailureOfAction(e)
    ensures NoneSpent(r, log + [e], calls)
  {
    FailuresAppend(log, e);
    forall i: nat | i < |r.start| && !Failed(calls, i) ensures Tried(r.start, log + [e], Action, i) < Allowed(r.options, 1) {
      assert Tried(r.start, log, Action, i) < Allowed(r.options, 1);
    }
  }

  /** s' is s with e logged, and nothing else changed but workers. */
  predicate Logs(s: State, s': State, e: LogEvent) {
    s'.log == s.log + [e] && s'.held == s.held && s'.graph == s.graph
  }

  lemma RecordGrows(r: Run, s: State, s': State, e: LogEvent, tx: Transaction, layer: set<nat>)
    requires RecordOk(r, s, tx, layer) && Logs(s, s', e) && (r.clean ==> !FailureOfAction(e))
    ensures RecordOk(r, s', tx, layer)
  {
    if AbortStatus(tx.status) { SpentAppend(r.start, s.log, e, Action, Allowed(r.options, 1)); }
    if GoesForward(tx.status) || tx.status.Succeeded? {
      CountedGrows(r, s.log, e, tx.branches);
      OkForAppend(s.log, e);
      if r.clean { NoneSpentSame(r, s.log, e, map[]); }
    }
  }

  // ---------------------------------------------------------------------
  // Steps of a forward worker

  lemma StartCurrent(r: Run, s: State)
    requires RecordOk(r, s, s.stored, {}) && GoesForward(s.stored.status)
    ensures PersistOk(r, s, s.stored.(status := Succeeding), Loop)
  {
  }

  lemma AdminCurrent(r: Run, s: State, request: Request)
    requires RecordOk(r, s, s.stored, {}) && BeginRequest(s.stored, request).Administering?
    requires request.ScheduleAbort? ==> !GoesForward(s.stored.status)
    ensures RecordOk(r, s, BeginRequest(s.stored, request).tx, {})
  {
    var tx := BeginRequest(s.stored, request).tx;
    if GoesForward(tx.status) {
      forall i: nat | i < |tx.branches| ensures Shows(r, s.log, tx.branches[i], i, Pending(tx.branches[i], map[], i)) {
        assert Shows(r, s.log, s.stored.branches[i], i, Pending(s.stored.branches[i], map[], i));
      }
    }
  }

  /** The write of a forward worker, and where it goes from there. */
  lemma AcceptCurrent(r: Run, s: State, tx: Transaction, next: Then, now: nat)
    requires PersistOk(r, s, tx, next)
    ensures var a, t := Accept(s, tx, now), tx.(revision := Next64(tx.revision));
            && RecordOk(r, a, a.stored, if next.Invoke? then Elements(next.layer) else {})
            && (next.Loop? ==> ForwardOk(r, a, t, {}))
            && (next.Invoke? ==> CallingOk(r, a, t, map i | i in next.layer :: Spawned, false))
  {
    var layer := if next.Invoke? then Elements(next.layer) else {};
    var a := Accept(s, tx, now);
    RecordGrows(r, s, a, Stored(tx.status), tx, layer);
    if next.Invoke? {
      var calls := map i | i in next.layer :: Spawned;
      assert calls.Keys == layer;
      forall i: nat | i < |tx.branches| ensures Shows(r, a.log, tx.branches[i], i, Pending(tx.branches[i], calls, i)) {
        assert Shows(r, a.log, tx.branches[i], i, Pending(tx.branches[i], map[], i));
      }
    }
  }

  lemma AdvanceCurrent(r: Run, s: State, tx: Transaction)
    requires ForwardOk(r, s, tx, {})
    ensures var wk := AdvanceLoop(Action, tx);
            && CurrentOk(r, s, wk)
            && (wk.Idle? && r.clean ==> RecordOk(r, s, s.stored, {}))
  {
    var ready := ReadyActions(tx.branches);
    assert ready[..0] == [];
  }

  /** The layer is written down as running. */
  lemma RunningCurrent(r: Run, s: State, tx: Transaction, layer: seq<nat>)
    requires CurrentOk(r, s, Claiming(Action, tx, layer, |layer|)) && Fits32(r.options, r.start)
    ensures PersistOk(r, s, MarkRunning(tx, layer), Invoke(layer))
  {
    assert layer[..|layer|] == layer;
    var t := MarkRunning(tx, layer);
    forall i: nat | i < |t.branches| ensures Shows(r, s.log, t.branches[i], i, Pending(t.branches[i], map[], i)) {
      assert Shows(r, s.log, tx.branches[i], i, Pending(tx.branches[i], map[], i));
    }
  }

  lemma ClaimCurrent(r: Run, s: State, tx: Transaction, layer: seq<nat>, k: nat)
    requires CurrentOk(r, s, Claiming(Action, tx, layer, k)) && k < |layer| && layer[k] < |tx.branches|
    ensures var s' := s.(held := s.held + {KeyOf(tx, layer[k], Action)});
            CurrentOk(r, s', Claiming(Action, tx, layer, k + 1))
  {
    var s' := s.(held := s.held + {KeyOf(tx, layer[k], Action)});
    assert layer[..k + 1] == layer[..k] + [layer[k]];
    assert Shows(r, s.log, tx.branches[layer[k]], layer[k], Pending(tx.branches[layer[k]], map[], layer[k]));
    assert layer[k] in layer[..k + 1];
    if r.clean {
      forall key | key in s'.held && key.op == Action
        ensures OkFor(s.log, key) || Covers(r, Elements(layer[..k + 1]), key.branch)
      {
        assert layer[k] in Elements(layer[..k + 1]) && Elements(layer[..k]) <= Elements(layer[..k + 1]);
      }
    }
  }

  lemma AnswerCurrent(r: Run, s: State, s': State, e: LogEvent, tx: Transaction, calls: map<nat, Call>, exhausted: bool,
                      i: nat, call: Call)
    requires CallingOk(r, s, tx, calls, exhausted) && Logs(s, s', e) && i in calls && (calls[i] == Spawned || calls[i] == Open)
    requires !e.Stored? && e.op == Action && e.index == i && e.id == tx.branches[i].id
    requires (e.Issued? && call == Open) || (e.Answered? && call == Replied(e.ok))
    ensures CallingOk(r, s', tx, calls[i := call], exhausted)
  {
    FailuresAppend(s.log, e);
    OkForAppend(s.log, e);
    var calls' := calls[i := call];
    assert calls'.Keys == calls.Keys;
    forall j: nat | j < |tx.branches| ensures Shows(r, s'.log, tx.branches[j], j, Pending(tx.branches[j], calls', j)) {
      assert Shows(r, s.log, tx.branches[j], j, Pending(tx.branches[j], calls, j));
    }
    if exhausted { SpentAppend(r.start, s.log, e, Action, Allowed(r.options, 1)); }
    if r.clean && !exhausted {
      forall j: nat | j < |r.start| && !Failed(calls', j) ensures Tried(r.start, s'.log, Action, j) < Allowed(r.options, 1) {
        assert !Failed(calls, j) && Tried(r.start, s.log, Action, j) < Allowed(r.options, 1);
      }
    }
  }

  lemma JoinedOk(r: Run, s: State, tx: Transaction, calls: map<nat, Call>, exhausted: bool, i: nat)
    requires CallingOk(r, s, tx, calls, exhausted) && i in calls && calls[i] == Replied(true)
    ensures CallingOk(r, s, Put(tx, i, BranchStatus.Succeeded, None), calls - {i}, exhausted)
  {
    var t := Put(tx, i, BranchStatus.Succeeded, None);
    assert (calls - {i}).Keys == calls.Keys - {i};
    forall j: nat | j < |t.branches| ensures Shows(r, s.log, t.branches[j], j, Pending(t.branches[j], calls - {i}, j)) {
      assert Shows(r, s.log, tx.branches[j], j, Pending(tx.branches[j], calls, j));
    }
    if r.clean {
      forall key | key in s.held && key.op == Action ensures OkFor(s.log, key) || Covers(r, calls.Keys - {i}, key.branch) {
        if Covers(r, calls.Keys, key.branch) { CoversLess(r, calls.Keys, i, key.branch); }
        if r.start[i].id == key.branch { assert key == KeyOf(tx, i, Action); }
      }
      forall j: nat | j < |r.start| && !Failed(calls - {i}, j) && !exhausted
        ensures Tried(r.start, s.log, Action, j) < Allowed(r.options, 1) {
        assert !Failed(calls, j);
      }
    }
  }

  lemma CoversLess(r: Run, layer: set<nat>, i: nat, id: string)
    requires Covers(r, layer, id) && i < |r.start|
    ensures Covers(r, layer - {i}, id) || r.start[i].id == id
  {
    var j :| j in layer && j < |r.start| && r.start[j].id == id;
    if j != i { assert j in layer - {i}; }
  }

  lemma JoinedFailed(r: Run, s: State, tx: Transaction, calls: map<nat, Call>, exhausted: bool, i: nat, retryAt: nat)
    requires CallingOk(r, s, tx, calls, exhausted) && i in calls && calls[i] == Replied(false) && Fits32(r.options, r.start)
    ensures var s' := s.(held := s.held - {KeyOf(tx, i, Action)});
            CallingOk(r, s', Put(tx, i, BranchStatus.Failed, Some(retryAt)), calls - {i},
                      exhausted || tx.branches[i].attempts >= MaxAttempts(tx.options))
  {
    var s' := s.(held := s.held - {KeyOf(tx, i, Action)});
    var t := Put(tx, i, BranchStatus.Failed, Some(retryAt));
    var last := tx.branches[i].attempts >= MaxAttempts(tx.options);
    assert (calls - {i}).Keys == calls.Keys - {i};
    assert Shows(r, s.log, tx.branches[i], i, Pending(tx.branches[i], calls, i));
    forall j: nat | j < |t.branches| ensures Shows(r, s.log, t.branches[j], j, Pending(t.branches[j], calls - {i}, j)) {
      assert Shows(r, s.log, tx.branches[j], j, Pending(tx.branches[j], calls, j));
    }
    SatThreshold(r.options, Tried(r.start, s.log, Action, i), tx.branches[i].attempts);
    if r.clean {
      forall key | key in s'.held && key.op == Action ensures OkFor(s.log, key) || Covers(r, calls.Keys - {i}, key.branch) {
        assert OkFor(s.log, key) || Covers(r, calls.Keys, key.branch);
        if Covers(r, calls.Keys, key.branch) { CoversLess(r, calls.Keys, i, key.branch); }
        if r.start[i].id == key.branch { assert key == KeyOf(tx, i, Action); }
      }
      forall j: nat | j < |r.start| && !Failed(calls - {i}, j) && !exhausted && !last
        ensures Tried(r.start, s.log, Action, j) < Allowed(r.options, 1) {
        assert j != i ==> !Failed(calls, j);
      }
    }
  }

  lemma SatThreshold(o: Options, tried: nat, attempts: nat)
    requires o.retryLimit.Some? ==> o.retryLimit.value <= MAX_U32
    ensures attempts <= tried && attempts >= MaxAttempts(o) ==> tried >= Allowed(o, 1)
    ensures attempts == Sat32(tried) && attempts < MaxAttempts(o) ==> tried < Allowed(o, 1)
  {
  }

  lemma EndCurrent(r: Run, s: State, tx: Transaction, retryable: bool, exhausted: bool)
    requires CallingOk(r, s, tx, map[], exhausted)
    ensures if exhausted then PersistOk(r, s, Exhaust(tx), EnterAbort)
            else PersistOk(r, s, tx, if retryable then Return else Loop)
  {
    var none: map<nat, Call> := map[];
    assert none.Keys == {};
    forall i: nat | i < |tx.branches| ensures Shows(r, s.log, tx.branches[i], i, Pending(tx.branches[i], none, i)) {
      assert Shows(r, s.log, tx.branches[i], i, Pending(tx.branches[i], map[], i));
    }
  }

  // ---------------------------------------------------------------------
  // Any number of workers, with stops

  ghost predicate Bounded(r: Run, s: State, wk: Worker) {
    match wk
    case Idle => true
    case Releasing(_, _, _) => true
    case Administering(tx) => tx.revision <= s.stored.revision && (tx.revision == s.stored.revision ==> RecordOk(r, s, tx, {}))
    case _ =>
      && wk.tx.revision <= s.stored.revision
      && (wk.op == Action || wk.op == Compensate)
      && (wk.op == Compensate ==>
            SpentNow(r, s.log) && wk.tx.options == r.options && (wk.tx.status.Aborting? || wk.tx.status.Aborted?))
      && (wk.op == Action && wk.tx.revision == s.stored.revision ==> CurrentOk(r, s, wk))
  }

  ghost predicate AllBounded(r: Run, s: State) {
    && Fits32(r.options, r.start) && !r.clean
    && RecordOk(r, s, s.stored, {})
    && forall w :: Bounded(r, s, WorkerAt(s, w))
  }

  lemma CallingGrows(r: Run, s: State, s': State, e: LogEvent, tx: Transaction, calls: map<nat, Call>, exhausted: bool)
    requires CallingOk(r, s, tx, calls, exhausted) && !r.clean && s'.log == s.log + [e]
    ensures CallingOk(r, s', tx, calls, exhausted)
  {
    FailuresAppend(s.log, e);
    forall i: nat | i < |tx.branches| ensures Shows(r, s'.log, tx.branches[i], i, Pending(tx.branches[i], calls, i)) {
      assert Shows(r, s.log, tx.branches[i], i, Pending(tx.branches[i], calls, i));
    }
    if exhausted { SpentAppend(r.start, s.log, e, Action, Allowed(r.options, 1)); }
  }

  lemma OthersGrow(r: Run, s: State, s': State, e: LogEvent, wk: Worker)
    requires Bounded(r, s, wk) && !r.clean && Logs(s, s', e) && s'.stored == s.stored
    ensures Bounded(r, s', wk)
  {
    match wk
    case Administering(tx) => if tx.revision == s.stored.revision { RecordGrows(r, s, s', e, tx, {}); }
    case Idle =>
    case Releasing(_, _, _) =>
    case _ =>
      if wk.op == Compensate { SpentAppend(r.start, s.log, e, Action, Allowed(r.options, 1)); }
      else if wk.tx.revision == s.stored.revision { CurrentGrows(r, s, s', e, wk); }
  }

  lemma CurrentGrows(r: Run, s: State, s': State, e: LogEvent, wk: Worker)
    requires CurrentOk(r, s, wk) && !r.clean && Logs(s, s', e)
    ensures CurrentOk(r, s', wk)
  {
    match wk
    case Persisting(_, tx, next) => RecordGrows(r, s, s', e, tx, if next.Invoke? then Elements(next.layer) else {});
    case AtLoop(_, tx) => RecordGrows(r, s, s', e, tx, {});
    case Claiming(_, tx, layer, k) => RecordGrows(r, s, s', e, tx, Elements(layer[..k]));
    case Calling(_, tx, calls, _, exhausted) => CallingGrows(r, s, s', e, tx, calls, exhausted);
    case _ =>
  }

  /** Worker w moves; nothing is stored or logged. */
  predicate Moves(s: State, s': State, w: nat, wk: Worker) {
    s'.stored == s.stored && s'.log == s.log && s'.workers == s.workers[w := wk]
  }

  lemma MoveBounded(r: Run, s: State, s': State, w: nat, wk: Worker)
    requires AllBounded(r, s) && Moves(s, s', w, wk) && Bounded(r, s, wk)
    ensures AllBounded(r, s')
  {
    HeldAside(r, s, s', s.stored, {});
    forall v ensures Bounded(r, s', WorkerAt(s', v)) {
      assert Bounded(r, s, WorkerAt(s, v));
      BoundedAside(r, s, s', if v == w then wk else WorkerAt(s, v));
    }
  }

  /** Barriers do not matter here. */
  lemma HeldAside(r: Run, s: State, s': State, tx: Transaction, layer: set<nat>)
    requires !r.clean && s'.log == s.log
    ensures RecordOk(r, s', tx, layer) == RecordOk(r, s, tx, layer)
  {
  }

  lemma BoundedAside(r: Run, s: State, s': State, wk: Worker)
    requires !r.clean && s'.log == s.log && s'.stored == s.stored && Bounded(r, s, wk)
    ensures Bounded(r, s', wk)
  {
    match wk
    case Administering(tx) => HeldAside(r, s, s', tx, {});
    case Persisting(_, tx, next) => HeldAside(r, s, s', tx, if next.Invoke? then Elements(next.layer) else {});
    case AtLoop(_, tx) => HeldAside(r, s, s', tx, {});
    case Claiming(_, tx, layer, k) => if k <= |layer| { HeldAside(r, s, s', tx, Elements(layer[..k])); }
    case _ =>
  }

  lemma LogBounded(r: Run, s: State, s': State, e: LogEvent, w: nat, wk: Worker)
    requires AllBounded(r, s) && Logs(s, s', e) && s'.stored == s.stored && s'.workers == s.workers[w := wk]
    requires Bounded(r, s', wk)
    ensures AllBounded(r, s')
  {
    RecordGrows(r, s, s', e, s.stored, {});
    forall v ensures Bounded(r, s', WorkerAt(s', v)) {
      if v != w {
        assert Bounded(r, s, WorkerAt(s, v));
        OthersGrow(r, s, s', e, WorkerAt(s, v));
      }
    }
  }

  lemma BeginBounded(r: Run, s: State, w: nat, request: Request)
    requires AllBounded(r, s) && WorkerAt(s, w).Idle?
    requires request.Abort? || request.ScheduleAbort? ==> !GoesForward(s.stored.status)
    ensures AllBounded(r, Goto(s, w, BeginRequest(s.stored, request)))
  {
    var wk := BeginRequest(s.stored, request);
    if request.Start? && wk.Persisting? { StartCurrent(r, s); }
    if wk.Administering? { AdminCurrent(r, s, request); }
    MoveBounded(r, s, Goto(s, w, wk), w, wk);
  }

  /** Whoever else has a copy is now out of date. */
  lemma AcceptBounded(r: Run, s: State, tx: Transaction, now: nat, w: nat, wk: Worker)
    requires AllBounded(r, s) && s.stored.revision < MAX_U64 && tx.revision == s.stored.revision
    requires RecordOk(r, Accept(s, tx, now), Accept(s, tx, now).stored, {}) && Bounded(r, Accept(s, tx, now), wk)
    ensures AllBounded(r, Goto(Accept(s, tx, now), w, wk))
  {
    var a := Accept(s, tx, now);
    var s' := Goto(a, w, wk);
    HeldAside(r, a, s', s'.stored, {});
    forall v ensures Bounded(r, s', WorkerAt(s', v)) {
      var was := WorkerAt(s, v);
      assert Bounded(r, s, was);
      if v == w { BoundedAside(r, a, s', wk);
      } else if !was.Idle? && !was.Releasing? && !was.Administering? && was.op == Compensate {
        SpentAppend(r.start, s.log, Stored(tx.status), Action, Allowed(r.options, 1));
      }
    }
  }

  lemma WriteBounded(r: Run, s: State, wk: Worker, now: nat)
    requires wk.Persisting? && Bounded(r, s, wk) && !r.clean && wk.tx.revision == s.stored.revision
    ensures var a, tx := Accept(s, wk.tx, now), wk.tx;
            && RecordOk(r, a, a.stored, {})
            && Bounded(r, a, Continue(wk.op, tx.(revision := Next64(tx.revision)), wk.next))
  {
    var a, tx := Accept(s, wk.tx, now), wk.tx;
    if wk.op == Action {
      AcceptCurrent(r, s, tx, wk.next, now);
      UncleanAnyLayer(r, a, a.stored, if wk.next.Invoke? then Elements(wk.next.layer) else {}, {});
    } else {
      SpentAppend(r.start, s.log, Stored(tx.status), Action, Allowed(r.options, 1));
    }
  }

  lemma PersistBounded(r: Run, s: State, w: nat, now: nat)
    requires AllBounded(r, s) && s.stored.revision < MAX_U64
    ensures AllBounded(r, PersistStep(s, w, now))
  {
    var wk := WorkerAt(s, w);
    assert Bounded(r, s, wk);
    if wk.Persisting? || wk.Administering? {
      var tx, a := wk.tx, Accept(s, wk.tx, now);
      if tx.revision != s.stored.revision {
        MoveBounded(r, s, Goto(s, w, Idle), w, Idle);
      } else if wk.Administering? {
        RecordGrows(r, s, a, Stored(tx.status), tx, {});
        AcceptBounded(r, s, tx, now, w, Idle);
      } else {
        WriteBounded(r, s, wk, now);
        AcceptBounded(r, s, tx, now, w, Continue(wk.op, tx.(revision := Next64(tx.revision)), wk.next));
      }
    }
  }

  lemma ClaimBounded(r: Run, s: State, w: nat)
    requires AllBounded(r, s)
    ensures AllBounded(r, ClaimStep(s, w))
  {
    var wk, s' := WorkerAt(s, w), ClaimStep(s, w);
    assert Bounded(r, s, wk);
    if wk.Claiming? && s' != s {
      var Claiming(op, tx, layer, k) := wk;
      if op == Action && tx.revision == s.stored.revision {
        if k == |layer| {
          RunningCurrent(r, s, tx, layer);
        } else if WorkerAt(s', w).Claiming? {
          ClaimCurrent(r, s, tx, layer, k);
          HeldAside(r, s.(held := s.held + {KeyOf(tx, layer[k], Action)}), s, tx, Elements(layer[..k + 1]));
        }
      }
      MoveBounded(r, s, s', w, WorkerAt(s', w));
    }
  }

  lemma CallBounded(r: Run, s: State, w: nat, e: LogEvent, i: nat, call: Call)
    requires AllBounded(r, s) && WorkerAt(s, w).Calling? && i in WorkerAt(s, w).calls && i < |WorkerAt(s, w).tx.branches|
    requires WorkerAt(s, w).calls[i] == Spawned || WorkerAt(s, w).calls[i] == Open
    requires !e.Stored? && e.op == WorkerAt(s, w).op && e.index == i && e.id == WorkerAt(s, w).tx.branches[i].id
    requires (e.Issued? && call == Open) || (e.Answered? && call == Replied(e.ok))
    ensures AllBounded(r, Goto(s.(log := s.log + [e]), w, WorkerAt(s, w).(calls := WorkerAt(s, w).calls[i := call])))
  {
    var wk := WorkerAt(s, w);
    var s' := Goto(s.(log := s.log + [e]), w, wk.(calls := wk.calls[i := call]));
    assert Bounded(r, s, wk);
    if wk.op == Compensate { SpentAppend(r.start, s.log, e, Action, Allowed(r.options, 1));
    } else if wk.tx.revision == s.stored.revision { AnswerCurrent(r, s, s', e, wk.tx, wk.calls, wk.exhausted, i, call); }
    LogBounded(r, s, s', e, w, wk.(calls := wk.calls[i := call]));
  }

  lemma JoinBounded(r: Run, s: State, w: nat, i: nat, retryAt: nat)
    requires AllBounded(r, s)
    ensures AllBounded(r, JoinStep(s, w, i, retryAt))
  {
    var wk, s' := WorkerAt(s, w), JoinStep(s, w, i, retryAt);
    assert Bounded(r, s, wk);
    if wk.Calling? && s' != s {
      if wk.op == Action && wk.tx.revision == s.stored.revision {
        if wk.calls[i] == Replied(true) { JoinedOk(r, s, wk.tx, wk.calls, wk.exhausted, i);
        } else { JoinedFailed(r, s, wk.tx, wk.calls, wk.exhausted, i, retryAt); }
      }
      MoveBounded(r, s, s', w, WorkerAt(s', w));
    }
  }

  lemma EndLayerBounded(r: Run, s: State, w: nat)
    requires AllBounded(r, s)
    ensures AllBounded(r, EndLayerStep(s, w))
  {
    var wk, s' := WorkerAt(s, w), EndLayerStep(s, w);
    assert Bounded(r, s, wk);
    if wk.Calling? && wk.calls == map[] {
      if wk.op == Action && wk.tx.revision == s.stored.revision { EndCurrent(r, s, wk.tx, wk.retryable, wk.exhausted); }
      MoveBounded(r, s, s', w, WorkerAt(s', w));
    }
  }

  lemma StepBounded(r: Run, s: State, e: Event)
    requires AllBounded(r, s) && s.stored.revision < MAX_U64 && NobodyAborts(s, [e])
    ensures AllBounded(r, Step(s, e))
  {
    var w, wk := e.worker, WorkerAt(s, e.worker);
    match e
    case Begin(_, request) => if wk.Idle? { BeginBounded(r, s, w, request); }
    case Persist(_, now) => PersistBounded(r, s, w, now);
    case Advance(_) =>
      if wk.AtLoop? {
        assert Bounded(r, s, wk);
        if wk.op == Action && wk.tx.revision == s.stored.revision { AdvanceCurrent(r, s, wk.tx); }
        MoveBounded(r, s, Step(s, e), w, AdvanceLoop(wk.op, wk.tx));
      }
    case Claim(_) => ClaimBounded(r, s, w);
    case Release(_) => if Step(s, e) != s { MoveBounded(r, s, Step(s, e), w, WorkerAt(Step(s, e), w)); }
    case Issue(_, i, at) =>
      if Step(s, e) != s { CallBounded(r, s, w, Issued(wk.op, i, wk.tx.branches[i].id, at), i, Open); }
    case Answer(_, i, ok) =>
      if Step(s, e) != s { CallBounded(r, s, w, Answered(wk.op, i, wk.tx.branches[i].id, ok), i, Replied(ok)); }
    case Join(_, i, retryAt) => JoinBounded(r, s, w, i, retryAt);
    case EndLayer(_) => EndLayerBounded(r, s, w);
    case Crash(_) => MoveBounded(r, s, Goto(s, w, Idle), w, Idle);
  }

  lemma {:induction false} RevisionGrows(s: State, es: seq<Event>)
    ensures s.stored.revision <= Exec(s, es).stored.revision
    decreases |es|
  {
    if es != [] { RevisionGrows(Step(s, es[0]), es[1..]); }
  }

  lemma {:induction false} ExecBounded(r: Run, s: State, es: seq<Event>)
    requires AllBounded(r, s) && NobodyAborts(s, es) && Exec(s, es).stored.revision < MAX_U64
    ensures AllBounded(r, Exec(s, es))
    decreases |es|
  {
    if es != [] {
      RevisionGrows(s, es);
      assert NobodyAborts(Step(s, es[0]), []);
      StepBounded(r, s, es[0]);
      ExecBounded(r, Step(s, es[0]), es[1..]);
    }
  }

  /** In every interleaving, wherever workers stop: a concurrent Saga that nobody aborts is aborted only
      after some action was answered with failure as often as its limit allows. */
  lemma AbortedOnlyWhenSpent(s: State, es: seq<Event>)
    requires ConcurrentSaga.Submitted(s) && Fits32(s.stored.options, s.stored.branches) && NobodyAborts(s, es)
    requires Exec(s, es).stored.revision < MAX_U64 && AbortStatus(Exec(s, es).stored.status)
    ensures Spent(s.stored.branches, Exec(s, es).log, Action, Allowed(s.stored.options, 1))
  {
    var r := Run(s.stored.branches, s.stored.options, false);
    assert AllBounded(r, s);
    ExecBounded(r, s, es);
  }

  // ---------------------------------------------------------------------
  // One worker, without stops

  ghost predicate Turned(r: Run, s: State) {
    SpentNow(r, s.log) && AbortStatus(s.stored.status) && s.stored.options == r.options
  }

  predicate AtRest(tx: Transaction, layer: seq<nat>) {
    forall i :: i in layer ==> i < |tx.branches| && !tx.branches[i].status.Running?
  }

  ghost predicate WorkerExact(r: Run, s: State, wk: Worker) {
    match wk
    case Idle => RecordOk(r, s, s.stored, {})
    case Administering(tx) => tx.revision == s.stored.revision && RecordOk(r, s, tx, {})
    case Releasing(op, tx, toRelease) =>
      && (op == Action || op == Compensate)
      && (op == Compensate ==> Turned(r, s))
      && (op == Action ==>
            && RecordOk(r, s, s.stored, Elements(toRelease)) && s.stored.status.Succeeding?
            && InSync(s, tx) && AtRest(tx, toRelease))
    case _ =>
      && wk.tx.revision == s.stored.revision && (wk.op == Action || wk.op == Compensate)
      && (wk.op == Compensate ==>
            Turned(r, s) && wk.tx.options == r.options && (wk.tx.status.Aborting? || wk.tx.status.Aborted?))
      && (wk.op == Action ==> CurrentOk(r, s, wk))
  }

  ghost predicate Exact(r: Run, s: State, w: nat) {
    && Fits32(r.options, r.start) && r.clean
    && (forall v :: v != w ==> WorkerAt(s, v).Idle?)
    && WorkerExact(r, s, WorkerAt(s, w))
  }

  /** Worker w moved, and the others stay idle. */
  lemma MoveExact(r: Run, s: State, s': State, w: nat, wk: Worker)
    requires Exact(r, s, w) && s'.workers == s.workers[w := wk] && WorkerExact(r, s', wk)
    ensures Exact(r, s', w)
  {
    forall v | v != w ensures WorkerAt(s', v).Idle? { assert WorkerAt(s, v).Idle?; }
  }

  /** Facts about one worker do not depend on where the others are. */
  lemma SameFacts(r: Run, a: State, b: State, wk: Worker)
    requires b == a.(workers := b.workers) && WorkerExact(r, a, wk)
    ensures WorkerExact(r, b, wk)
  {
  }

  lemma BeginExact(r: Run, s: State, w: nat, request: Request)
    requires Exact(r, s, w) && WorkerAt(s, w).Idle?
    requires request.Abort? || request.ScheduleAbort? ==> !GoesForward(s.stored.status)
    ensures Exact(r, Goto(s, w, BeginRequest(s.stored, request)), w)
  {
    var wk := BeginRequest(s.stored, request);
    if request.Start? && wk.Persisting? { StartCurrent(r, s); }
    if wk.Administering? { AdminCurrent(r, s, request); }
    SameFacts(r, s, Goto(s, w, wk), wk);
    MoveExact(r, s, Goto(s, w, wk), w, wk);
  }

  lemma WriteExact(r: Run, s: State, wk: Worker, now: nat)
    requires WorkerExact(r, s, wk) && wk.Persisting?
    ensures var tx := wk.tx;
            WorkerExact(r, Accept(s, tx, now), Continue(wk.op, tx.(revision := Next64(tx.revision)), wk.next))
  {
    var tx, a := wk.tx, Accept(s, wk.tx, now);
    if wk.op == Action {
      AcceptCurrent(r, s, tx, wk.next, now);
    } else {
      SpentAppend(r.start, s.log, Stored(tx.status), Action, Allowed(r.options, 1));
    }
  }

  lemma PersistExact(r: Run, s: State, w: nat, now: nat)
    requires Exact(r, s, w)
    ensures Exact(r, PersistStep(s, w, now), w)
  {
    var wk, s' := WorkerAt(s, w), PersistStep(s, w, now);
    if wk.Persisting? {
      var a, next := Accept(s, wk.tx, now), Continue(wk.op, wk.tx.(revision := Next64(wk.tx.revision)), wk.next);
      WriteExact(r, s, wk, now);
      SameFacts(r, a, s', next);
      MoveExact(r, s, s', w, next);
    } else if wk.Administering? {
      var a := Accept(s, wk.tx, now);
      RecordGrows(r, s, a, Stored(wk.tx.status), wk.tx, {});
      assert WorkerExact(r, a, Idle);
      SameFacts(r, a, s', Idle);
      MoveExact(r, s, s', w, Idle);
    }
  }

  lemma ClaimExact(r: Run, s: State, w: nat)
    requires Exact(r, s, w)
    ensures Exact(r, ClaimStep(s, w), w)
  {
    var wk, s' := WorkerAt(s, w), ClaimStep(s, w);
    if wk.Claiming? && s' != s {
      var wk' := WorkerAt(s', w);
      var a := s.(held := s'.held);
      if wk.op == Action { ClaimsForward(r, s, w, wk.tx, wk.layer, wk.claimed); }
      assert WorkerExact(r, a, wk');
      SameFacts(r, a, s', wk');
      MoveExact(r, s, s', w, wk');
    }
  }

  lemma ClaimsForward(r: Run, s: State, w: nat, tx: Transaction, layer: seq<nat>, k: nat)
    requires WorkerAt(s, w) == Claiming(Action, tx, layer, k) && CurrentOk(r, s, WorkerAt(s, w)) && ClaimStep(s, w) != s
    requires Fits32(r.options, r.start) && r.clean && tx.revision == s.stored.revision
    ensures var s' := ClaimStep(s, w); WorkerExact(r, s.(held := s'.held), WorkerAt(s', w))
  {
    if k == |layer| {
      RunningCurrent(r, s, tx, layer);
    } else if WorkerAt(ClaimStep(s, w), w).Claiming? {
      ClaimCurrent(r, s, tx, layer, k);
    }
  }

  lemma ReleaseOne(r: Run, s: State, tx: Transaction, toRelease: seq<nat>)
    requires RecordOk(r, s, s.stored, Elements(toRelease)) && s.stored.status.Succeeding? && InSync(s, tx) && r.clean
    requires toRelease != [] && toRelease[0] < |tx.branches| && AtRest(tx, toRelease)
    ensures AtRest(tx, toRelease[1..])
    ensures var a := s.(held := s.held - {KeyOf(tx, toRelease[0], Action)});
            RecordOk(r, a, a.stored, Elements(toRelease[1..]))
  {
    var i := toRelease[0];
    var a := s.(held := s.held - {KeyOf(tx, i, Action)});
    assert Shows(r, s.log, tx.branches[i], i, Pending(tx.branches[i], map[], i));
    forall key | key in a.held && key.op == Action
      ensures OkFor(a.log, key) || Covers(r, Elements(toRelease[1..]), key.branch) {
      if !OkFor(s.log, key) {
        var j :| j in Elements(toRelease) && j < |r.start| && r.start[j].id == key.branch;
        assert key != KeyOf(tx, i, Action);
        assert j in Elements(toRelease[1..]);
      }
    }
    assert Elements(toRelease) == Elements(toRelease[1..]) + {i};
  }

  lemma ReleaseExact(r: Run, s: State, w: nat)
    requires Exact(r, s, w)
    ensures Exact(r, ReleaseStep(s, w), w)
  {
    var wk, s' := WorkerAt(s, w), ReleaseStep(s, w);
    if wk.Releasing? && s' != s {
      var wk', a := WorkerAt(s', w), s.(held := s'.held);
      if wk.op == Action && wk.toRelease != [] { ReleaseOne(r, s, wk.tx, wk.toRelease); }
      assert WorkerExact(r, a, wk');
      SameFacts(r, a, s', wk');
      MoveExact(r, s, s', w, wk');
    }
  }

  lemma CallExact(r: Run, s: State, w: nat, e: LogEvent, i: nat, call: Call)
    requires Exact(r, s, w) && WorkerAt(s, w).Calling? && i in WorkerAt(s, w).calls && i < |WorkerAt(s, w).tx.branches|
    requires WorkerAt(s, w).calls[i] == Spawned || WorkerAt(s, w).calls[i] == Open
    requires !e.Stored? && e.op == WorkerAt(s, w).op && e.index == i && e.id == WorkerAt(s, w).tx.branches[i].id
    requires (e.Issued? && call == Open) || (e.Answered? && call == Replied(e.ok))
    ensures Exact(r, Goto(s.(log := s.log + [e]), w, WorkerAt(s, w).(calls := WorkerAt(s, w).calls[i := call])), w)
  {
    var wk := WorkerAt(s, w);
    var wk' := wk.(calls := wk.calls[i := call]);
    var a := s.(log := s.log + [e]);
    if wk.op == Compensate { SpentAppend(r.start, s.log, e, Action, Allowed(r.options, 1));
    } else { AnswerCurrent(r, s, a, e, wk.tx, wk.calls, wk.exhausted, i, call); }
    assert WorkerExact(r, a, wk');
    SameFacts(r, a, Goto(a, w, wk'), wk');
    MoveExact(r, s, Goto(a, w, wk'), w, wk');
  }

  lemma JoinExact(r: Run, s: State, w: nat, i: nat, retryAt: nat)
    requires Exact(r, s, w)
    ensures Exact(r, JoinStep(s, w, i, retryAt), w)
  {
    var wk, s' := WorkerAt(s, w), JoinStep(s, w, i, retryAt);
    if wk.Calling? && s' != s {
      var wk', a := WorkerAt(s', w), s.(held := s'.held);
      if wk.op == Action {
        if wk.calls[i] == Replied(true) { JoinedOk(r, s, wk.tx, wk.calls, wk.exhausted, i);
        } else { JoinedFailed(r, s, wk.tx, wk.calls, wk.exhausted, i, retryAt); }
      }
      assert WorkerExact(r, a, wk');
      SameFacts(r, a, s', wk');
      MoveExact(r, s, s', w, wk');
    }
  }

  lemma EndLayerExact(r: Run, s: State, w: nat)
    requires Exact(r, s, w)
    ensures Exact(r, EndLayerStep(s, w), w)
  {
    var wk, s' := WorkerAt(s, w), EndLayerStep(s, w);
    if wk.Calling? && wk.calls == map[] {
      if wk.op == Action { EndCurrent(r, s, wk.tx, wk.retryable, wk.exhausted); }
      assert WorkerExact(r, s, WorkerAt(s', w));
      SameFacts(r, s, s', WorkerAt(s', w));
      MoveExact(r, s, s', w, WorkerAt(s', w));
    }
  }

  lemma AdvanceExact(r: Run, s: State, w: nat)
    requires Exact(r, s, w) && WorkerAt(s, w).AtLoop?
    ensures Exact(r, Step(s, Advance(w)), w)
  {
    var wk := WorkerAt(s, w);
    var wk' := AdvanceLoop(wk.op, wk.tx);
    if wk.op == Action { AdvanceCurrent(r, s, wk.tx); }
    assert WorkerExact(r, s, wk');
    SameFacts(r, s, Goto(s, w, wk'), wk');
    MoveExact(r, s, Goto(s, w, wk'), w, wk');
  }

  lemma StepExact(r: Run, s: State, e: Event, w: nat)
    requires Exact(r, s, w) && e.worker == w && !e.Crash? && NobodyAborts(s, [e])
    ensures Exact(r, Step(s, e), w)
  {
    var wk := WorkerAt(s, w);
    match e
    case Begin(_, request) => if wk.Idle? { BeginExact(r, s, w, request); }
    case Persist(_, now) => PersistExact(r, s, w, now);
    case Advance(_) => if wk.AtLoop? { AdvanceExact(r, s, w); }
    case Claim(_) => ClaimExact(r, s, w);
    case Release(_) => ReleaseExact(r, s, w);
    case Issue(_, i, at) =>
      if Step(s, e) != s { CallExact(r, s, w, Issued(wk.op, i, wk.tx.branches[i].id, at), i, Open); }
    case Answer(_, i, ok) =>
      if Step(s, e) != s { CallExact(r, s, w, Answered(wk.op, i, wk.tx.branches[i].id, ok), i, Replied(ok)); }
    case Join(_, i, retryAt) => JoinExact(r, s, w, i, retryAt);
    case EndLayer(_) => EndLayerExact(r, s, w);
  }

  lemma {:induction false} ExecExact(r: Run, s: State, es: seq<Event>, w: nat)
    requires Exact(r, s, w) && NobodyAborts(s, es)
    requires forall k :: 0 <= k < |es| ==> es[k].worker == w && !es[k].Crash?
    ensures Exact(r, Exec(s, es), w)
    decreases |es|
  {
    if es != [] {
      assert NobodyAborts(Step(s, es[0]), []);
      StepExact(r, s, es[0], w);
      ExecExact(r, Step(s, es[0]), es[1..], w);
    }
  }

  /** Between the passes of one worker that does not stop: a concurrent Saga that nobody aborted or ended by
      force is Aborting or Aborted exactly if some action was answered with failure as often as its
      limit allows. Before that, every action that has not succeeded can be called again, and one that
      failed shows it and its retry time. */
  lemma AbortedIffSpent(s: State, es: seq<Event>, w: nat)
    requires ConcurrentSaga.Submitted(s) && Fits32(s.stored.options, s.stored.branches)
    requires forall i :: 0 <= i < |s.stored.branches| ==> s.stored.branches[i].attempts == 0
    requires NobodyAborts(s, es)
    requires forall k :: 0 <= k < |es| ==> es[k].worker == w && !es[k].Crash? && es[k] != Begin(w, ForceStop)
    requires WorkerAt(Exec(s, es), w).Idle?
    ensures var end := Exec(s, es);
            && (AbortStatus(end.stored.status) <==>
                  Spent(s.stored.branches, end.log, Action, Allowed(s.stored.options, 1)))
            && (!AbortStatus(end.stored.status) ==>
                  && (GoesForward(end.stored.status) || end.stored.status.Succeeded?)
                  && |end.stored.branches| == |s.stored.branches|
                  && forall i: nat :: i < |s.stored.branches| && !OkFor(end.log, KeyOf(s.stored, i, Action)) ==>
                       && KeyOf(s.stored, i, Action) !in end.held
                       && (Failures(end.log, Action, i) > 0 && !end.stored.branches[i].status.Succeeded? ==>
                             end.stored.branches[i].status.Failed? && end.stored.branches[i].nextRetry.Some?))
  {
    var r := Run(s.stored.branches, s.stored.options, true);
    assert Exact(r, s, w);
    ExecExact(r, s, es, w);
    NeverFailed(s, es, w);
    var end := Exec(s, es);
    if GoesForward(end.stored.status) || end.stored.status.Succeeded? { RestingFacts(r, end, s.stored); }
  }

  lemma RestingFacts(r: Run, end: State, start: Transaction)
    requires RecordOk(r, end, end.stored, {}) && r.clean && r.start == start.branches
    requires GoesForward(end.stored.status) || end.stored.status.Succeeded?
    ensures !SpentNow(r, end.log) && |end.stored.branches| == |start.branches|
    ensures forall i: nat :: i < |start.branches| && !OkFor(end.log, KeyOf(start, i, Action)) ==>
              && KeyOf(start, i, Action) !in end.held
              && (Failures(end.log, Action, i) > 0 && !end.stored.branches[i].status.Succeeded? ==>
                    end.stored.branches[i].status.Failed? && end.stored.branches[i].nextRetry.Some?)
  {
    forall i: nat | i < |start.branches| ensures Tried(r.start, end.log, Action, i) < Allowed(r.options, 1) {
      assert !Failed(map[], i);
    }
    forall i: nat | i < |start.branches|
      ensures Shows(r, end.log, end.stored.branches[i], i, Pending(end.stored.branches[i], map[], i)) { }
  }

  predicate Natural(status: TransactionStatus) { GoesForward(status) || AbortStatus(status) || status.Succeeded? }

  predicate NotForced(wk: Worker) { wk.Idle? || wk.Releasing? || Natural(wk.tx.status) }

  lemma {:induction false} NeverFailed(s: State, es: seq<Event>, w: nat)
    requires Natural(s.stored.status) && NotForced(WorkerAt(s, w))
    requires forall k :: 0 <= k < |es| ==> es[k].worker == w && es[k] != Begin(w, ForceStop)
    ensures Natural(Exec(s, es).stored.status)
    decreases |es|
  {
    if es != [] { NeverFailed(Step(s, es[0]), es[1..], w); }
  }
}
