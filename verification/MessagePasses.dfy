/** What one undisturbed dispatch of a Message leaves: Succeeded when it is due and all its calls succeed,
    unless concurrent delivery finds a barrier held; a call that fails leaves it to be dispatched again. */
module MessagePasses {
  import opened Core
  import opened Edits
  import opened Message

  /** The steps of one dispatch of worker w, without a stop, while time passes. */
  predicate Quiet(es: seq<Event>, w: nat) { forall k :: 0 <= k < |es| ==> QuietEvent(es[k], w) }

  predicate QuietEvent(e: Event, w: nat) {
    match e
    case Pass(_) => true
    case Begin(_, _) => false
    case Recover(_, _) => false
    case Load(_) => false
    case Crash(_) => false
    case _ => e.worker == w
  }

  predicate NoFailure(log: seq<LogEvent>, from: nat) {
    forall p :: from <= p < |log| && log[p].Answered? ==> log[p].ok
  }

  lemma {:induction false} Grows(s: State, es: seq<Event>)
    ensures s.log <= Exec(s, es).log && s.now <= Exec(s, es).now
    decreases |es|
  {
    if es != [] { Grows(Step(s, es[0]), es[1..]); }
  }

  lemma NoFailureBefore(log: seq<LogEvent>, more: seq<LogEvent>, from: nat)
    requires log <= more && NoFailure(more, from)
    ensures NoFailure(log, from)
  {
    assert forall p :: 0 <= p < |log| ==> log[p] == more[p];
  }

  // ---------------------------------------------------------------------
  // What is in the way of concurrent delivery

  /** From position k of the layer on, every barrier can be claimed. */
  predicate LayerFree(tx: Transaction, layer: seq<nat>, k: nat, held: set<Key>)
    decreases |layer| - k
  {
    k < |layer| ==>
      && layer[k] < |tx.branches| && KeyOf(tx, layer[k]) !in held
      && LayerFree(tx, layer, k + 1, held + {KeyOf(tx, layer[k])})
  }

  predicate InLayer(tx: Transaction, layer: seq<nat>) { forall a :: 0 <= a < |layer| ==> layer[a] < |tx.branches| }

  lemma {:induction false} LayerFreeMeans(tx: Transaction, layer: seq<nat>, k: nat, held: set<Key>)
    requires k <= |layer| && InLayer(tx, layer)
    ensures LayerFree(tx, layer, k, held) <==>
              && (forall a :: k <= a < |layer| ==> KeyOf(tx, layer[a]) !in held)
              && forall a, b :: k <= a < b < |layer| ==> KeyOf(tx, layer[a]) != KeyOf(tx, layer[b])
    decreases |layer| - k
  {
    if k < |layer| { LayerFreeMeans(tx, layer, k + 1, held + {KeyOf(tx, layer[k])}); }
  }

  /** No undelivered branch's barrier is held, and no two undelivered branches share one. */
  predicate Deliverable(tx: Transaction, held: set<Key>) {
    && (forall i: nat :: i < |tx.branches| && !tx.branches[i].status.Succeeded? ==> KeyOf(tx, i) !in held)
    && forall i: nat, j: nat :: i < j < |tx.branches| && !tx.branches[i].status.Succeeded? && !tx.branches[j].status.Succeeded?
         ==> tx.branches[i].id != tx.branches[j].id
  }

  lemma UndeliveredLayer(tx: Transaction)
    ensures InLayer(tx, Undelivered(tx.branches))
    ensures Increasing(Undelivered(tx.branches), |tx.branches|)
    ensures forall i: nat :: i in Undelivered(tx.branches) <==> i < |tx.branches| && !tx.branches[i].status.Succeeded?
  {
    var layer := Undelivered(tx.branches);
    forall a | 0 <= a < |layer| ensures layer[a] < |tx.branches| { assert layer[a] in layer; }
  }

  lemma DeliverableMeans(tx: Transaction, held: set<Key>)
    ensures LayerFree(tx, Undelivered(tx.branches), 0, held) <==> Deliverable(tx, held)
  {
    var layer := Undelivered(tx.branches);
    UndeliveredLayer(tx);
    LayerFreeMeans(tx, layer, 0, held);
    if LayerFree(tx, layer, 0, held) { FreeIsDeliverable(tx, held, layer); }
    if Deliverable(tx, held) {
      forall a | 0 <= a < |layer| ensures KeyOf(tx, layer[a]) !in held { assert layer[a] in layer; }
      forall a, b | 0 <= a < b < |layer| ensures KeyOf(tx, layer[a]) != KeyOf(tx, layer[b]) {
        assert layer[a] in layer && layer[b] in layer;
      }
    }
  }

  lemma FreeIsDeliverable(tx: Transaction, held: set<Key>, layer: seq<nat>)
    requires Increasing(layer, |tx.branches|)
    requires forall i: nat :: i in layer <==> i < |tx.branches| && !tx.branches[i].status.Succeeded?
    requires forall a :: 0 <= a < |layer| ==> KeyOf(tx, layer[a]) !in held
    requires forall a, b :: 0 <= a < b < |layer| ==> KeyOf(tx, layer[a]) != KeyOf(tx, layer[b])
    ensures Deliverable(tx, held)
  {
    forall i: nat | i in layer ensures i < |tx.branches| && KeyOf(tx, i) !in held {
      var a :| 0 <= a < |layer| && layer[a] == i;
    }
    forall i: nat, j: nat | i < j && i in layer && j in layer ensures tx.branches[i].id != tx.branches[j].id {
      var a :| 0 <= a < |layer| && layer[a] == i;
      var b :| 0 <= b < |layer| && layer[b] == j;
      assert a < b;
      assert KeyOf(tx, layer[a]) != KeyOf(tx, layer[b]);
    }
  }

  /** Whether a dispatch of the record will get through. */
  predicate Open(tx: Transaction, held: set<Key>) {
    tx.options.concurrent ==> Deliverable(tx, held)
  }

  // ---------------------------------------------------------------------
  // A dispatch that is due

  predicate Current(s: State, tx: Transaction) { tx.revision == s.stored.revision && tx.status.Succeeding? }

  predicate Fits(s: State, w: nat, open: bool) {
    match WorkerAt(s, w)
    case Idle => s.stored.status == if open then TransactionStatus.Succeeded else Succeeding
    case Persisting(tx, CheckClock) => Current(s, tx) && Due(tx, s.now) && Open(tx, s.held) == open
    case Persisting(tx, InvokeAll(layer)) => open && Current(s, tx) && InLayer(tx, layer)
    case Persisting(tx, Return) => open && tx.revision == s.stored.revision && tx.status.Succeeded?
    case AtClock(tx) => Current(s, tx) && s.stored.status.Succeeding? && Due(tx, s.now) && Open(tx, s.held) == open
    case InOrder(tx, k) => open && Current(s, tx)
    case InOrderCall(tx, k, call) => open && Current(s, tx) && k < |tx.branches| && (call == Spawned || call == Call.Open)
    case Claiming(tx, layer, k) =>
      && Current(s, tx) && s.stored.status.Succeeding? && InLayer(tx, layer) && k <= |layer|
      && LayerFree(tx, layer, k, s.held) == open
    case Releasing(_, _) => !open && s.stored.status.Succeeding?
    case Calling(tx, calls, failed) =>
      open && Current(s, tx) && !failed && forall i :: i in calls ==> i < |tx.branches| && calls[i] != Replied(false)
    case _ => false
  }

  lemma ClockFits(s: State, w: nat, open: bool)
    requires Fits(s, w, open) && WorkerAt(s, w).AtClock?
    ensures Fits(AdvanceStep(s, w), w, open)
  {
    UndeliveredLayer(WorkerAt(s, w).tx);
    DeliverableMeans(WorkerAt(s, w).tx, s.held);
  }

  lemma PersistFits(s: State, w: nat, time: nat, open: bool)
    requires Fits(s, w, open)
    ensures Fits(PersistStep(s, w, time), w, open)
  {
    var wk := WorkerAt(s, w);
    if wk.Persisting? {
      if wk.next.CheckClock? { assert Open(wk.tx.(revision := Next64(wk.tx.revision)), s.held) == Open(wk.tx, s.held); }
    }
  }

  lemma AdvanceFits(s: State, w: nat, open: bool)
    requires Fits(s, w, open)
    ensures Fits(AdvanceStep(s, w), w, open)
  {
    if WorkerAt(s, w).AtClock? { ClockFits(s, w, open); }
    if WorkerAt(s, w).Claiming? { ClaimFits(s, w, open); }
  }

  lemma ClaimFits(s: State, w: nat, open: bool)
    requires Fits(s, w, open) && WorkerAt(s, w).Claiming?
    ensures Fits(AdvanceStep(s, w), w, open)
  {
    var Claiming(tx, layer, k) := WorkerAt(s, w);
    assert |MarkRunning(tx, layer).branches| == |tx.branches|;
  }

  lemma CallFits(s: State, w: nat, e: Event, open: bool, from: nat)
    requires Fits(s, w, open) && QuietEvent(e, w) && (e.Issue? || e.Answer? || e.Join? || e.EndLayer? || e.Release? || e.Pass?)
    requires from <= |s.log| && NoFailure(Step(s, e).log, from)
    ensures Fits(Step(s, e), w, open)
  {
    var s' := Step(s, e);
    if e.Answer? && s' != s { assert s'.log[|s.log|].ok; }
  }

  lemma StepFits(s: State, w: nat, e: Event, open: bool, from: nat)
    requires Fits(s, w, open) && QuietEvent(e, w) && from <= |s.log| && NoFailure(Step(s, e).log, from)
    ensures Fits(Step(s, e), w, open)
  {
    match e
    case Persist(_, time) => PersistFits(s, w, time, open);
    case Advance(_) => AdvanceFits(s, w, open);
    case _ => CallFits(s, w, e, open, from);
  }

  lemma {:induction false} RunFits(s: State, w: nat, es: seq<Event>, open: bool, from: nat)
    requires Fits(s, w, open) && Quiet(es, w) && from <= |s.log| && NoFailure(Exec(s, es).log, from)
    ensures Fits(Exec(s, es), w, open)
    decreases |es|
  {
    if es != [] {
      var s' := Step(s, es[0]);
      Grows(s', es[1..]);
      NoFailureBefore(s'.log, Exec(s, es).log, from);
      assert QuietEvent(es[0], w);
      StepFits(s, w, es[0], open, from);
      RunFits(s', w, es[1..], open, from);
    }
  }

  lemma {:induction false} StaysIdle(s: State, w: nat, es: seq<Event>)
    requires WorkerAt(s, w).Idle? && Quiet(es, w)
    ensures Exec(s, es).stored == s.stored
    decreases |es|
  {
    if es != [] {
      assert QuietEvent(es[0], w);
      StaysIdle(Step(s, es[0]), w, es[1..]);
    }
  }

  /** The time of delivery has come; sums beyond 64 bits saturate. */
  predicate DueBy(tx: Transaction, now: nat) {
    tx.options.delay.None? || tx.createdAt + tx.options.delay.value <= now || MAX_U64 <= now
  }

  /** A dispatch that has ended, undisturbed and with no call answered with failure, of a Message that is
      due: it leaves Succeeded, but for concurrent delivery with a barrier in the way, which leaves the
      Message Succeeding. On a Message that is not open it changes nothing. */
  lemma DispatchResult(s: State, w: nat, es: seq<Event>)
    requires WorkerAt(s, w).Idle? && Quiet(es, w) && DueBy(s.stored, s.now)
    requires var end := Exec(s, [Begin(w, Dispatch)] + es); WorkerAt(end, w).Idle? && NoFailure(end.log, |s.log|)
    ensures var end := Exec(s, [Begin(w, Dispatch)] + es);
            if s.stored.status.Submitted? || s.stored.status.Prepared? || s.stored.status.Succeeding?
            then end.stored.status ==
                 if s.stored.options.concurrent && !Deliverable(s.stored, s.held) then Succeeding
                 else TransactionStatus.Succeeded
            else end.stored == s.stored
  {
    var s1, open := Step(s, Begin(w, Dispatch)), Open(s.stored, s.held);
    assert ([Begin(w, Dispatch)] + es)[1..] == es;
    if Undecided(s.stored) || s.stored.status.Succeeding? {
      var tx := WorkerAt(s1, w).tx;
      assert Open(tx, s.held) == open && Due(tx, s.now);
      RunFits(s1, w, es, open, |s.log|);
    } else {
      StaysIdle(s1, w, es);
    }
  }

  predicate Early(s: State, w: nat) {
    match WorkerAt(s, w)
    case Idle => s.stored.status.Succeeding?
    case Persisting(tx, next) => next.CheckClock? && tx.status.Succeeding? && tx.revision == s.stored.revision && !Due(tx, s.now)
    case AtClock(tx) => s.stored.status.Succeeding? && !Due(tx, s.now)
    case _ => false
  }

  lemma {:induction false} EarlyRuns(s: State, w: nat, es: seq<Event>, due: nat)
    requires Early(s, w) && Quiet(es, w) && Exec(s, es).now < due
    requires WorkerAt(s, w).Persisting? || WorkerAt(s, w).AtClock? ==> DispatchAt(WorkerAt(s, w).tx) == due
    ensures Early(Exec(s, es), w)
    decreases |es|
  {
    if es != [] {
      var s' := Step(s, es[0]);
      assert QuietEvent(es[0], w);
      Grows(s', es[1..]);
      EarlyRuns(s', w, es[1..], due);
    }
  }

  /** A dispatch that ends before the time of delivery only stores the decision. */
  lemma EarlyDispatchResult(s: State, w: nat, es: seq<Event>)
    requires WorkerAt(s, w).Idle? && Quiet(es, w)
    requires s.stored.status.Submitted? || s.stored.status.Prepared? || s.stored.status.Succeeding?
    requires var end := Exec(s, [Begin(w, Dispatch)] + es); WorkerAt(end, w).Idle? && !DueBy(s.stored, end.now)
    ensures Exec(s, [Begin(w, Dispatch)] + es).stored.status.Succeeding?
  {
    var s1 := Step(s, Begin(w, Dispatch));
    assert ([Begin(w, Dispatch)] + es)[1..] == es;
    Grows(s1, es);
    EarlyRuns(s1, w, es, DispatchAt(s.stored));
  }

  // ---------------------------------------------------------------------
  // A delivery that fails

  /** Branch i failed: it waits for its retry time, and its barrier is free. */
  predicate FailedOn(s: State, tx: Transaction, i: nat) {
    && i < |tx.branches| && tx.branches[i].status.Failed? && tx.branches[i].nextRetry.Some? && KeyOf(tx, i) !in s.held
  }

  predicate Fails(s: State, w: nat, i: nat) {
    match WorkerAt(s, w)
    case Idle => s.stored.status.Succeeding? && FailedOn(s, s.stored, i)
    case Persisting(tx, next) =>
      tx.revision == s.stored.revision && next.Return? && tx.status.Succeeding? && FailedOn(s, tx, i)
    case InOrderCall(tx, k, call) =>
      Current(s, tx) && k == i < |tx.branches| && call == Replied(false)
    case Calling(tx, calls, failed) =>
      && Current(s, tx) && i < |tx.branches|
      && if i in calls then calls[i] == Replied(false) else failed && FailedOn(s, tx, i)
    case _ => false
  }

  lemma FailsStep(s: State, w: nat, e: Event, i: nat)
    requires Fails(s, w, i) && QuietEvent(e, w)
    ensures Fails(Step(s, e), w, i)
  {
  }

  lemma {:induction false} FailsRuns(s: State, w: nat, es: seq<Event>, i: nat)
    requires Fails(s, w, i) && Quiet(es, w)
    ensures Fails(Exec(s, es), w, i)
    decreases |es|
  {
    if es != [] {
      assert QuietEvent(es[0], w);
      FailsStep(s, w, es[0], i);
      FailsRuns(Step(s, es[0]), w, es[1..], i);
    }
  }

  /** The call of branch i is open. */
  predicate Calls(wk: Worker, i: nat) {
    match wk
    case InOrderCall(tx, k, call) => k == i < |tx.branches| && call == Call.Open
    case Calling(tx, calls, _) => i in calls && calls[i] == Call.Open && i < |tx.branches|
    case _ => false
  }

  /** A delivery that fails leaves the Message Succeeding, whatever the others answer; the branch waits for
      its retry time, and its barrier is free. */
  lemma FailedDeliveryWaits(s: State, w: nat, i: nat, es: seq<Event>)
    requires Calls(WorkerAt(s, w), i) && Current(s, WorkerAt(s, w).tx)
    requires Quiet(es, w) && WorkerAt(Exec(s, [Answer(w, i, false)] + es), w).Idle?
    ensures var end := Exec(s, [Answer(w, i, false)] + es);
            end.stored.status.Succeeding? && FailedOn(end, end.stored, i)
  {
    assert ([Answer(w, i, false)] + es)[1..] == es;
    FailsRuns(Step(s, Answer(w, i, false)), w, es, i);
  }

  // ---------------------------------------------------------------------
  // The branches that a dispatch leaves

  function Delivered(b: Branch): Branch {
    b.(status := BranchStatus.Succeeded, attempts := if b.attempts < MAX_U32 then b.attempts + 1 else b.attempts,
       nextRetry := None)
  }

  predicate TakesBarrier(start: Transaction, k: nat, j: nat, key: Key) {
    j < k && j < |start.branches| && !start.branches[j].status.Succeeded? && KeyOf(start, j) == key
  }

  predicate Taken(start: Transaction, k: nat, key: Key) { exists j: nat :: j < k && TakesBarrier(start, k, j, key) }

  /** Going in order, a branch is called unless its barrier was held or taken by a branch before. */
  function InOrderLeaves(start: Transaction, held: set<Key>, i: nat): Branch
    requires i < |start.branches|
  {
    if start.branches[i].status.Succeeded? || KeyOf(start, i) in held || Taken(start, i, KeyOf(start, i))
    then start.branches[i] else Delivered(start.branches[i])
  }

  function AllAtOnceLeaves(start: Transaction, i: nat): Branch
    requires i < |start.branches|
  {
    if start.branches[i].status.Succeeded? then start.branches[i] else Delivered(start.branches[i])
  }

  predicate Begun(start: Transaction, tx: Transaction) {
    tx.branches == start.branches && tx.options == start.options
  }

  predicate InOrderAt(start: Transaction, held: set<Key>, tx: Transaction, k: nat) {
    && |tx.branches| == |start.branches|
    && forall i: nat :: i < |tx.branches| ==>
         tx.branches[i] == if i < k then InOrderLeaves(start, held, i) else start.branches[i]
  }

  predicate CalledAt(start: Transaction, tx: Transaction, calls: map<nat, Call>) {
    && |tx.branches| == |start.branches|
    && (forall i :: i in calls ==> i < |tx.branches| && !start.branches[i].status.Succeeded?)
    && forall i: nat :: i < |tx.branches| ==>
         tx.branches[i] == if i in calls then StartRunning(start.branches[i]) else AllAtOnceLeaves(start, i)
  }

  ghost predicate TookBelow(start: Transaction, held: set<Key>, now: set<Key>, k: nat) {
    forall key :: key in now <==> key in held || Taken(start, k, key)
  }

  predicate Leaves(start: Transaction, held: set<Key>, tx: Transaction) {
    && |tx.branches| == |start.branches|
    && forall i: nat :: i < |tx.branches| ==>
         tx.branches[i] == if start.options.concurrent then AllAtOnceLeaves(start, i) else InOrderLeaves(start, held, i)
  }

  /** What a dispatch of start shows, the barriers having been held at its start. */
  ghost predicate Shows(s: State, w: nat, start: Transaction, held: set<Key>) {
    && (s.stored.status.Succeeded? ==> Leaves(start, held, s.stored))
    && match WorkerAt(s, w)
       case Idle => true
       case Persisting(tx, CheckClock) => Begun(start, tx) && tx.status.Succeeding? && s.held == held
       case Persisting(tx, InvokeAll(layer)) =>
         start.options.concurrent && tx.status.Succeeding? && CalledAt(start, tx, map i | i in layer :: Spawned)
       case Persisting(tx, Return) => tx.status.Succeeded? ==> Leaves(start, held, tx)
       case AtClock(tx) => Begun(start, tx) && tx.status.Succeeding? && s.held == held
       case InOrder(tx, k) =>
         !start.options.concurrent && tx.status.Succeeding? && InOrderAt(start, held, tx, k) && TookBelow(start, held, s.held, k)
       case InOrderCall(tx, k, call) =>
         && !start.options.concurrent && tx.status.Succeeding? && k < |tx.branches| == |start.branches|
         && InOrderAt(start, held, tx.(branches := tx.branches[k := start.branches[k]]), k)
         && tx.branches[k] == StartRunning(start.branches[k])
         && InOrderLeaves(start, held, k) == Delivered(start.branches[k]) && TookBelow(start, held, s.held, k + 1)
         && (call == Spawned || call == Call.Open)
       case Claiming(tx, layer, k) =>
         start.options.concurrent && Begun(start, tx) && tx.status.Succeeding? && layer == Undelivered(start.branches)
       case Releasing(_, _) => true
       case Calling(tx, calls, failed) =>
         && start.options.concurrent && tx.status.Succeeding? && CalledAt(start, tx, calls) && !failed
         && forall i :: i in calls ==> calls[i] != Replied(false)
       case _ => false
  }

  lemma TakenNext(start: Transaction, k: nat, key: Key)
    requires k < |start.branches|
    ensures Taken(start, k + 1, key) <==>
              Taken(start, k, key) || (!start.branches[k].status.Succeeded? && KeyOf(start, k) == key)
  {
    if Taken(start, k, key) {
      var j: nat :| j < k && TakesBarrier(start, k, j, key);
      assert TakesBarrier(start, k + 1, j, key);
    }
    if Taken(start, k + 1, key) {
      var j: nat :| j < k + 1 && TakesBarrier(start, k + 1, j, key);
      if j < k { assert TakesBarrier(start, k, j, key); }
    }
    if !start.branches[k].status.Succeeded? && KeyOf(start, k) == key { assert TakesBarrier(start, k + 1, k, key); }
  }

  lemma TakesOne(start: Transaction, held: set<Key>, now: set<Key>, k: nat)
    requires TookBelow(start, held, now, k) && k < |start.branches|
    ensures start.branches[k].status.Succeeded? || KeyOf(start, k) in now ==> TookBelow(start, held, now, k + 1)
    ensures !start.branches[k].status.Succeeded? ==> TookBelow(start, held, now + {KeyOf(start, k)}, k + 1)
  {
    forall key ensures Taken(start, k + 1, key) <==>
        Taken(start, k, key) || (!start.branches[k].status.Succeeded? && KeyOf(start, k) == key) {
      TakenNext(start, k, key);
    }
  }

  lemma PassesOver(start: Transaction, held: set<Key>, now: set<Key>, tx: Transaction, k: nat)
    requires InOrderAt(start, held, tx, k) && TookBelow(start, held, now, k) && k < |tx.branches|
    requires start.branches[k].status.Succeeded? || KeyOf(start, k) in now
    ensures InOrderAt(start, held, tx, k + 1) && TookBelow(start, held, now, k + 1)
  {
    TakesOne(start, held, now, k);
  }

  lemma ClaimsInOrder(start: Transaction, held: set<Key>, now: set<Key>, tx: Transaction, k: nat)
    requires InOrderAt(start, held, tx, k) && TookBelow(start, held, now, k) && k < |tx.branches|
    requires !start.branches[k].status.Succeeded? && KeyOf(start, k) !in now
    ensures var bs := tx.branches[k := StartRunning(tx.branches[k])];
            && InOrderAt(start, held, tx.(branches := bs[k := start.branches[k]]), k)
            && InOrderLeaves(start, held, k) == Delivered(start.branches[k])
            && TookBelow(start, held, now + {KeyOf(start, k)}, k + 1)
  {
    TakesOne(start, held, now, k);
    var bs := tx.branches[k := StartRunning(tx.branches[k])];
    assert bs[k := start.branches[k]] == tx.branches;
  }

  lemma ShowsInOrder(s: State, w: nat, start: Transaction, held: set<Key>, tx: Transaction, k: nat)
    requires Shows(s, w, start, held) && WorkerAt(s, w) == InOrder(tx, k)
    ensures Shows(AdvanceStep(s, w), w, start, held)
  {
    if k < |tx.branches| {
      if start.branches[k].status.Succeeded? || KeyOf(start, k) in s.held { ShowsPassed(s, w, start, held, tx, k);
      } else { ShowsClaimed(s, w, start, held, tx, k); }
    }
  }

  lemma ShowsPassed(s: State, w: nat, start: Transaction, held: set<Key>, tx: Transaction, k: nat)
    requires Shows(s, w, start, held) && WorkerAt(s, w) == InOrder(tx, k) && k < |tx.branches|
    requires start.branches[k].status.Succeeded? || KeyOf(start, k) in s.held
    ensures Shows(AdvanceStep(s, w), w, start, held)
  {
    var s' := AdvanceStep(s, w);
    PassesOver(start, held, s.held, tx, k);
    assert tx.branches[k] == start.branches[k] && WorkerAt(s', w) == InOrder(tx, k + 1) && s'.held == s.held;
  }

  lemma ShowsClaimed(s: State, w: nat, start: Transaction, held: set<Key>, tx: Transaction, k: nat)
    requires Shows(s, w, start, held) && WorkerAt(s, w) == InOrder(tx, k) && k < |tx.branches|
    requires !start.branches[k].status.Succeeded? && KeyOf(start, k) !in s.held
    ensures Shows(AdvanceStep(s, w), w, start, held)
  {
    var s' := AdvanceStep(s, w);
    ClaimsInOrder(start, held, s.held, tx, k);
    assert tx.branches[k] == start.branches[k] && s'.held == s.held + {KeyOf(start, k)};
    var running := tx.(branches := tx.branches[k := StartRunning(tx.branches[k])]);
    assert WorkerAt(s', w) == InOrderCall(running, k, Spawned);
  }

  lemma ShowsClock(s: State, w: nat, start: Transaction, held: set<Key>, tx: Transaction)
    requires Shows(s, w, start, held) && WorkerAt(s, w) == AtClock(tx)
    ensures Shows(AdvanceStep(s, w), w, start, held)
  {
    UndeliveredLayer(tx);
    if tx.options.concurrent && Undelivered(tx.branches) == [] {
      forall i: nat | i < |tx.branches| ensures tx.branches[i].status.Succeeded? { assert i !in Undelivered(tx.branches); }
    }
  }

  lemma MarksAll(start: Transaction, tx: Transaction, layer: seq<nat>)
    requires Begun(start, tx) && layer == Undelivered(start.branches)
    ensures CalledAt(start, MarkRunning(tx, layer), map i | i in layer :: Spawned)
  {
    UndeliveredLayer(start);
    var calls, marked := map i | i in layer :: Spawned, MarkRunning(tx, layer);
    forall i: nat | i < |marked.branches|
      ensures marked.branches[i] == if i in calls then StartRunning(start.branches[i]) else AllAtOnceLeaves(start, i) {
      assert i in layer <==> !start.branches[i].status.Succeeded?;
    }
  }

  lemma ShowsClaim(s: State, w: nat, start: Transaction, held: set<Key>, tx: Transaction, layer: seq<nat>, k: nat)
    requires Shows(s, w, start, held) && WorkerAt(s, w) == Claiming(tx, layer, k)
    ensures Shows(AdvanceStep(s, w), w, start, held)
  {
    if k == |layer| { MarksAll(start, tx, layer); }
  }

  lemma ShowsDelivered(s: State, w: nat, start: Transaction, held: set<Key>, tx: Transaction, k: nat, e: Event)
    requires Shows(s, w, start, held) && WorkerAt(s, w) == InOrderCall(tx, k, Call.Open) && e == Answer(w, k, true)
    ensures Shows(Step(s, e), w, start, held)
  {
    var tx' := Put(tx, k, BranchStatus.Succeeded, None);
    var before := tx.branches[k := start.branches[k]];
    forall i: nat | i < |tx'.branches|
      ensures tx'.branches[i] == if i < k + 1 then InOrderLeaves(start, held, i) else start.branches[i] {
      if i != k { assert tx'.branches[i] == before[i]; }
    }
  }

  lemma ShowsJoin(s: State, w: nat, start: Transaction, held: set<Key>, i: nat, retryAt: nat)
    requires Shows(s, w, start, held) && WorkerAt(s, w).Calling?
    ensures Shows(JoinStep(s, w, i, retryAt), w, start, held)
  {
    var Calling(tx, calls, failed) := WorkerAt(s, w);
    if i in calls && calls[i] == Replied(true) {
      var tx' := Put(tx, i, BranchStatus.Succeeded, None);
      forall j: nat | j < |tx'.branches|
        ensures tx'.branches[j] == if j in calls - {i} then StartRunning(start.branches[j]) else AllAtOnceLeaves(start, j) {
        assert j in calls - {i} <==> j in calls && j != i;
      }
    }
  }

  lemma ShowsAnswer(s: State, w: nat, start: Transaction, held: set<Key>, e: Event, from: nat)
    requires Shows(s, w, start, held) && e.Answer? && e.worker == w && from <= |s.log| && NoFailure(Step(s, e).log, from)
    ensures Shows(Step(s, e), w, start, held)
  {
    var wk, s' := WorkerAt(s, w), Step(s, e);
    if s' != s {
      assert s'.log[|s.log|].ok;
      if wk.InOrderCall? { ShowsDelivered(s, w, start, held, wk.tx, wk.k, e); }
    }
  }

  lemma ShowsIssue(s: State, w: nat, start: Transaction, held: set<Key>, i: nat)
    requires Shows(s, w, start, held)
    ensures Shows(IssueStep(s, w, i), w, start, held)
  {
  }

  lemma ShowsEnd(s: State, w: nat, start: Transaction, held: set<Key>)
    requires Shows(s, w, start, held)
    ensures Shows(EndLayerStep(s, w), w, start, held)
  {
  }

  lemma ShowsPersist(s: State, w: nat, start: Transaction, held: set<Key>, time: nat)
    requires Shows(s, w, start, held)
    ensures Shows(PersistStep(s, w, time), w, start, held)
  {
  }

  lemma ShowsAdvance(s: State, w: nat, start: Transaction, held: set<Key>)
    requires Shows(s, w, start, held)
    ensures Shows(AdvanceStep(s, w), w, start, held)
  {
    match WorkerAt(s, w)
    case AtClock(tx) => ShowsClock(s, w, start, held, tx);
    case InOrder(tx, k) => ShowsInOrder(s, w, start, held, tx, k);
    case Claiming(tx, layer, k) => ShowsClaim(s, w, start, held, tx, layer, k);
    case _ =>
  }

  lemma ShowsStep(s: State, w: nat, start: Transaction, held: set<Key>, e: Event, from: nat)
    requires Shows(s, w, start, held) && QuietEvent(e, w) && from <= |s.log| && NoFailure(Step(s, e).log, from)
    ensures Shows(Step(s, e), w, start, held)
  {
    var wk := WorkerAt(s, w);
    match e
    case Persist(_, time) => ShowsPersist(s, w, start, held, time);
    case Advance(_) => ShowsAdvance(s, w, start, held);
    case Answer(_, _, _) => ShowsAnswer(s, w, start, held, e, from);
    case Join(_, i, retryAt) => if wk.Calling? { ShowsJoin(s, w, start, held, i, retryAt); }
    case Issue(_, i) => ShowsIssue(s, w, start, held, i);
    case EndLayer(_) => ShowsEnd(s, w, start, held);
    case _ =>
  }

  lemma {:induction false} ShowsRuns(s: State, w: nat, start: Transaction, held: set<Key>, es: seq<Event>, from: nat)
    requires Shows(s, w, start, held) && Quiet(es, w) && from <= |s.log| && NoFailure(Exec(s, es).log, from)
    ensures Shows(Exec(s, es), w, start, held)
    decreases |es|
  {
    if es != [] {
      var s' := Step(s, es[0]);
      Grows(s', es[1..]);
      NoFailureBefore(s'.log, Exec(s, es).log, from);
      assert QuietEvent(es[0], w);
      ShowsStep(s, w, start, held, es[0], from);
      ShowsRuns(s', w, start, held, es[1..], from);
    }
  }

  /** The branches that an undisturbed dispatch leaves, if no call fails and it stores Succeeded: each one
      delivered, or, in order, passed over as it was. */
  lemma DispatchLeaves(s: State, w: nat, es: seq<Event>)
    requires WorkerAt(s, w).Idle? && Quiet(es, w) && !s.stored.status.IsTerminal()
    requires var end := Exec(s, [Begin(w, Dispatch)] + es); WorkerAt(end, w).Idle? && NoFailure(end.log, |s.log|)
    ensures var end := Exec(s, [Begin(w, Dispatch)] + es).stored;
            end.status.Succeeded? ==>
              && |end.branches| == |s.stored.branches|
              && forall i: nat :: i < |end.branches| ==>
                   end.branches[i] == if s.stored.options.concurrent then AllAtOnceLeaves(s.stored, i)
                                      else InOrderLeaves(s.stored, s.held, i)
  {
    assert ([Begin(w, Dispatch)] + es)[1..] == es;
    ShowsRuns(Step(s, Begin(w, Dispatch)), w, s.stored, s.held, es, |s.log|);
  }

  // ---------------------------------------------------------------------
  // Claims that are given back

  function Keys(tx: Transaction, layer: seq<nat>): set<Key>
    requires InLayer(tx, layer)
  {
    set a: nat | a < |layer| :: KeyOf(tx, layer[a])
  }

  /** Exactly the barriers of the claimed branches were added, each of them once. */
  predicate Claimed(tx: Transaction, claimed: seq<nat>, held: set<Key>, now: set<Key>) {
    && InLayer(tx, claimed)
    && (forall a, b :: 0 <= a < b < |claimed| ==> KeyOf(tx, claimed[a]) != KeyOf(tx, claimed[b]))
    && (forall a :: 0 <= a < |claimed| ==> KeyOf(tx, claimed[a]) !in held)
    && now == held + Keys(tx, claimed)
  }

  /** A dispatch that concurrent delivery will not let through. */
  predicate Fruitless(s: State, w: nat, held: set<Key>) {
    match WorkerAt(s, w)
    case Idle => s.held == held
    case Persisting(tx, next) =>
      next.CheckClock? && s.held == held && tx.options.concurrent && !LayerFree(tx, Undelivered(tx.branches), 0, held)
    case AtClock(tx) => s.held == held && tx.options.concurrent && !LayerFree(tx, Undelivered(tx.branches), 0, held)
    case Claiming(tx, layer, k) =>
      InLayer(tx, layer) && k <= |layer| && Claimed(tx, layer[..k], held, s.held) && !LayerFree(tx, layer, k, s.held)
    case Releasing(tx, toRelease) => Claimed(tx, toRelease, held, s.held)
    case _ => false
  }

  lemma LayerFreeSame(a: Transaction, b: Transaction, held: set<Key>)
    requires a.branches == b.branches
    ensures LayerFree(a, Undelivered(a.branches), 0, held) == LayerFree(b, Undelivered(b.branches), 0, held)
  {
    DeliverableMeans(a, held);
    DeliverableMeans(b, held);
    assert Deliverable(a, held) == Deliverable(b, held);
  }

  lemma ClaimOneMore(tx: Transaction, layer: seq<nat>, k: nat, held: set<Key>, now: set<Key>)
    requires InLayer(tx, layer) && k < |layer| && Claimed(tx, layer[..k], held, now) && KeyOf(tx, layer[k]) !in now
    ensures Claimed(tx, layer[..k + 1], held, now + {KeyOf(tx, layer[k])})
  {
    var less, more := layer[..k], layer[..k + 1];
    assert more == less + [layer[k]];
    KeysOneMore(tx, less, layer[k]);
    forall a: nat | a < |less| ensures KeyOf(tx, less[a]) in now { assert KeyOf(tx, less[a]) in Keys(tx, less); }
  }

  lemma KeysOneMore(tx: Transaction, less: seq<nat>, i: nat)
    requires InLayer(tx, less) && i < |tx.branches|
    ensures InLayer(tx, less + [i]) && Keys(tx, less + [i]) == Keys(tx, less) + {KeyOf(tx, i)}
  {
    var more := less + [i];
    assert more[|less|] == i && forall a: nat :: a < |less| ==> more[a] == less[a];
    forall key | key in Keys(tx, less) ensures key in Keys(tx, more) {
      var a: nat :| a < |less| && key == KeyOf(tx, less[a]);
      assert key == KeyOf(tx, more[a]);
    }
    assert KeyOf(tx, more[|less|]) in Keys(tx, more);
  }

  lemma ReleaseOne(tx: Transaction, claimed: seq<nat>, held: set<Key>, now: set<Key>)
    requires claimed != [] && Claimed(tx, claimed, held, now)
    ensures Claimed(tx, claimed[1..], held, now - {KeyOf(tx, claimed[0])})
  {
    var rest, first := claimed[1..], KeyOf(tx, claimed[0]);
    assert forall a: nat :: a < |rest| ==> rest[a] == claimed[a + 1];
    forall key | key in Keys(tx, claimed) && key != first ensures key in Keys(tx, rest) {
      var a: nat :| a < |claimed| && key == KeyOf(tx, claimed[a]);
      assert key == KeyOf(tx, rest[a - 1]);
    }
    forall key | key in Keys(tx, rest) ensures key in Keys(tx, claimed) && key != first {
      var a: nat :| a < |rest| && key == KeyOf(tx, rest[a]);
      assert key == KeyOf(tx, claimed[a + 1]);
    }
    assert first in Keys(tx, claimed) && first !in held;
  }

  lemma FruitlessClaim(s: State, w: nat, tx: Transaction, layer: seq<nat>, k: nat, held: set<Key>)
    requires Fruitless(s, w, held) && WorkerAt(s, w) == Claiming(tx, layer, k)
    ensures Fruitless(AdvanceStep(s, w), w, held)
  {
    if k < |layer| && KeyOf(tx, layer[k]) !in s.held { ClaimOneMore(tx, layer, k, held, s.held); }
  }

  lemma FruitlessRelease(s: State, w: nat, tx: Transaction, toRelease: seq<nat>, held: set<Key>)
    requires Fruitless(s, w, held) && WorkerAt(s, w) == Releasing(tx, toRelease)
    ensures Fruitless(ReleaseStep(s, w), w, held)
  {
    if toRelease != [] { ReleaseOne(tx, toRelease, held, s.held); } else { assert Keys(tx, toRelease) == {}; }
  }

  lemma FruitlessStep(s: State, w: nat, e: Event, held: set<Key>)
    requires Fruitless(s, w, held) && QuietEvent(e, w)
    ensures Fruitless(Step(s, e), w, held)
  {
    match WorkerAt(s, w)
    case Persisting(tx, _) =>
      if e.Persist? { LayerFreeSame(tx, tx.(revision := Next64(tx.revision)), held); }
    case AtClock(tx) => FruitlessClock(s, w, e, tx, held);
    case Claiming(tx, layer, k) => if e.Advance? { FruitlessClaim(s, w, tx, layer, k, held); }
    case Releasing(tx, toRelease) => if e.Release? { FruitlessRelease(s, w, tx, toRelease, held); }
    case _ =>
  }

  lemma FruitlessClock(s: State, w: nat, e: Event, tx: Transaction, held: set<Key>)
    requires Fruitless(s, w, held) && QuietEvent(e, w) && WorkerAt(s, w) == AtClock(tx)
    ensures Fruitless(Step(s, e), w, held)
  {
    var layer := Undelivered(tx.branches);
    UndeliveredLayer(tx);
    assert Keys(tx, layer[..0]) == {};
  }

  lemma {:induction false} FruitlessRuns(s: State, w: nat, es: seq<Event>, held: set<Key>)
    requires Fruitless(s, w, held) && Quiet(es, w)
    ensures Fruitless(Exec(s, es), w, held)
    decreases |es|
  {
    if es != [] {
      assert QuietEvent(es[0], w);
      FruitlessStep(s, w, es[0], held);
      FruitlessRuns(Step(s, es[0]), w, es[1..], held);
    }
  }

  /** A concurrent dispatch that finds a barrier held or shared gives back what it claimed. */
  lemma BlockedDispatchReleases(s: State, w: nat, es: seq<Event>)
    requires WorkerAt(s, w).Idle? && Quiet(es, w) && s.stored.options.concurrent && !Deliverable(s.stored, s.held)
    requires WorkerAt(Exec(s, [Begin(w, Dispatch)] + es), w).Idle?
    ensures Exec(s, [Begin(w, Dispatch)] + es).held == s.held
  {
    var s1 := Step(s, Begin(w, Dispatch));
    assert ([Begin(w, Dispatch)] + es)[1..] == es;
    DeliverableMeans(s.stored, s.held);
    if !WorkerAt(s1, w).Idle? { LayerFreeSame(s.stored, WorkerAt(s1, w).tx, s.held); }
    FruitlessRuns(s1, w, es, s.held);
  }

  // ---------------------------------------------------------------------
  // Every dispatch ends

  predicate Live(wk: Worker) {
    match wk
    case InOrder(tx, k) => k <= |tx.branches|
    case InOrderCall(_, _, _) => false
    case Claiming(tx, layer, k) => k <= |layer| && InLayer(tx, layer)
    case Releasing(tx, toRelease) => InLayer(tx, toRelease)
    case Persisting(tx, InvokeAll(layer)) => InLayer(tx, layer)
    case Calling(tx, calls, _) => forall i :: i in calls ==> i < |tx.branches| && calls[i] == Spawned
    case _ => true
  }

  function Phase(wk: Worker): nat {
    match wk
    case Idle => 0
    case Chosen(_) => 0
    case Persisting(_, next) => if next.CheckClock? then 6 else if next.InvokeAll? then 3 else 1
    case AtClock(_) => 5
    case InOrder(_, _) => 4
    case InOrderCall(_, _, _) => 0
    case Claiming(_, _, _) => 4
    case Releasing(_, _) => 3
    case Calling(_, _, _) => 2
  }

  function Size(wk: Worker): int {
    match wk
    case InOrder(tx, k) => |tx.branches| - k
    case Claiming(_, layer, k) => |layer| - k
    case Releasing(_, toRelease) => |toRelease|
    case Calling(_, calls, _) => |calls|
    case _ => 0
  }

  /** From s to t the worker came closer to the end, and no call failed. */
  predicate Closer(s: State, t: State, w: nat) {
    && Live(WorkerAt(t, w)) && !WorkerAt(t, w).Chosen?
    && (Phase(WorkerAt(t, w)) < Phase(WorkerAt(s, w))
        || (Phase(WorkerAt(t, w)) == Phase(WorkerAt(s, w)) && 0 <= Size(WorkerAt(t, w)) < Size(WorkerAt(s, w))))
    && s.log <= t.log && NoFailure(t.log, |s.log|)
  }

  lemma RunOne(s: State, e: Event)
    ensures Exec(s, [e]) == Step(s, e)
  {
    var t := Step(s, e);
    assert [e][1..] == [] && Exec(t, []) == t;
  }

  lemma {:induction false} ExecAppend(s: State, a: seq<Event>, b: seq<Event>)
    ensures Exec(s, a + b) == Exec(Exec(s, a), b)
    decreases |a|
  {
    if a == [] {
      assert a + b == b;
    } else {
      assert (a + b)[1..] == a[1..] + b;
      ExecAppend(Step(s, a[0]), a[1..], b);
    }
  }

  lemma RunThree(s: State, a: Event, b: Event, c: Event)
    ensures Exec(s, [a, b, c]) == Step(Step(Step(s, a), b), c)
  {
    assert [a, b, c] == ([a] + [b]) + [c];
    ExecAppend(s, [a] + [b], [c]);
    ExecAppend(s, [a], [b]);
    RunOne(s, a);
    RunOne(Step(s, a), b);
    RunOne(Step(Step(s, a), b), c);
  }

  lemma AnswersInOrder(s: State, w: nat, tx: Transaction, k: nat)
    requires WorkerAt(s, w) == InOrderCall(tx, k, Spawned) && k < |tx.branches|
    ensures var t := Step(Step(s, Issue(w, k)), Answer(w, k, true));
            && WorkerAt(t, w) == InOrder(Put(tx, k, BranchStatus.Succeeded, None), k + 1)
            && s.log <= t.log && NoFailure(t.log, |s.log|)
  {
    var s1 := IssueStep(s, w, k);
    assert WorkerAt(s1, w) == InOrderCall(tx, k, Call.Open);
  }

  lemma DeliversNext(s: State, w: nat, tx: Transaction, k: nat)
    requires WorkerAt(s, w) == InOrder(tx, k) && k < |tx.branches| && WorkerAt(Step(s, Advance(w)), w).InOrderCall?
    ensures var t := Step(Step(Step(s, Advance(w)), Issue(w, k)), Answer(w, k, true));
            && WorkerAt(t, w).InOrder? && WorkerAt(t, w).k == k + 1 && |WorkerAt(t, w).tx.branches| == |tx.branches|
            && s.log <= t.log && NoFailure(t.log, |s.log|)
  {
    var s1 := Step(s, Advance(w));
    AnswersInOrder(s1, w, WorkerAt(s1, w).tx, k);
  }

  lemma InOrderCloser(s: State, w: nat) returns (es: seq<Event>)
    requires WorkerAt(s, w).InOrder? && Live(WorkerAt(s, w))
    ensures Quiet(es, w) && Closer(s, Exec(s, es), w)
  {
    var InOrder(tx, k) := WorkerAt(s, w);
    var s1 := Step(s, Advance(w));
    if WorkerAt(s1, w).InOrderCall? {
      var a, b, c := Advance(w), Issue(w, k), Answer(w, k, true);
      es := [a, b, c];
      RunThree(s, a, b, c);
      DeliversNext(s, w, tx, k);
    } else {
      es := [Advance(w)];
      RunOne(s, Advance(w));
    }
  }

  lemma GetsAnswer(s: State, w: nat, tx: Transaction, calls: map<nat, Call>, failed: bool, i: nat)
    requires WorkerAt(s, w) == Calling(tx, calls, failed) && i in calls && calls[i] == Spawned && i < |tx.branches|
    ensures var t := Step(Step(s, Issue(w, i)), Answer(w, i, true));
            && WorkerAt(t, w) == Calling(tx, calls[i := Replied(true)], failed)
            && s.log <= t.log && NoFailure(t.log, |s.log|)
  {
    var s1 := IssueStep(s, w, i);
    assert WorkerAt(s1, w) == Calling(tx, calls[i := Call.Open], failed);
  }

  /** A call is made, answered with success and joined. */
  lemma CallJoins(s: State, w: nat, tx: Transaction, calls: map<nat, Call>, failed: bool, i: nat)
    requires WorkerAt(s, w) == Calling(tx, calls, failed) && i in calls && calls[i] == Spawned && i < |tx.branches|
    ensures var t := Step(Step(Step(s, Issue(w, i)), Answer(w, i, true)), Join(w, i, 0));
            && WorkerAt(t, w) == Calling(Put(tx, i, BranchStatus.Succeeded, None), calls - {i}, failed)
            && s.log <= t.log && NoFailure(t.log, |s.log|)
  {
    var s2 := Step(Step(s, Issue(w, i)), Answer(w, i, true));
    GetsAnswer(s, w, tx, calls, failed, i);
    var t := JoinStep(s2, w, i, 0);
    assert calls[i := Replied(true)] - {i} == calls - {i};
    assert Step(s2, Join(w, i, 0)) == t;
  }

  lemma Fewer(calls: map<nat, Call>, i: nat)
    requires i in calls
    ensures |calls - {i}| < |calls|
  {
    assert calls.Keys == (calls - {i}).Keys + {i};
    assert |calls.Keys| == |calls| && |(calls - {i}).Keys| == |calls - {i}|;
  }

  lemma CallCloser(s: State, w: nat) returns (es: seq<Event>)
    requires WorkerAt(s, w).Calling? && Live(WorkerAt(s, w)) && WorkerAt(s, w).calls != map[]
    ensures Quiet(es, w) && Closer(s, Exec(s, es), w)
  {
    var Calling(tx, calls, failed) := WorkerAt(s, w);
    var i :| i in calls;
    var a, b, c := Issue(w, i), Answer(w, i, true), Join(w, i, 0);
    var t := Step(Step(Step(s, a), b), c);
    CallJoins(s, w, tx, calls, failed, i);
    Fewer(calls, i);
    es := [a, b, c];
    RunThree(s, a, b, c);
    assert Closer(s, t, w);
  }

  lemma AdvanceCloser(s: State, w: nat)
    requires Live(WorkerAt(s, w)) && (WorkerAt(s, w).AtClock? || WorkerAt(s, w).Claiming?)
    ensures Closer(s, Step(s, Advance(w)), w)
  {
    if WorkerAt(s, w).AtClock? { UndeliveredLayer(WorkerAt(s, w).tx); }
  }

  lemma OneStepCloser(s: State, w: nat) returns (es: seq<Event>)
    requires Live(WorkerAt(s, w)) && !WorkerAt(s, w).Idle? && !WorkerAt(s, w).Chosen? && !WorkerAt(s, w).InOrder?
    requires WorkerAt(s, w).Calling? ==> WorkerAt(s, w).calls == map[]
    ensures Quiet(es, w) && Closer(s, Exec(s, es), w)
  {
    var wk := WorkerAt(s, w);
    var e := if wk.Persisting? then Persist(w, 0)
             else if wk.Releasing? then Release(w)
             else if wk.Calling? then EndLayer(w)
             else Advance(w);
    es := [e];
    RunOne(s, e);
    if wk.AtClock? || wk.Claiming? { AdvanceCloser(s, w); }
  }

  /** Whatever point a dispatch is at between its calls, it can be run to its end with every call answered
      with success. */
  lemma {:induction false} DispatchEnds(s: State, w: nat) returns (es: seq<Event>)
    requires Live(WorkerAt(s, w)) && !WorkerAt(s, w).Chosen?
    ensures Quiet(es, w) && WorkerAt(Exec(s, es), w).Idle? && NoFailure(Exec(s, es).log, |s.log|)
    decreases Phase(WorkerAt(s, w)), Size(WorkerAt(s, w))
  {
    var wk := WorkerAt(s, w);
    if wk.Idle? {
      es := [];
      return;
    }
    var go;
    if wk.InOrder? { go := InOrderCloser(s, w);
    } else if wk.Calling? && wk.calls != map[] { go := CallCloser(s, w);
    } else { go := OneStepCloser(s, w); }
    var t := Exec(s, go);
    var rest := DispatchEnds(t, w);
    es := go + rest;
    ExecAppend(s, go, rest);
    Grows(t, rest);
    var log := Exec(t, rest).log;
    forall p | |s.log| <= p < |log| && log[p].Answered? ensures log[p].ok {
      if p < |t.log| { assert log[p] == t.log[p]; }
    }
  }
}
