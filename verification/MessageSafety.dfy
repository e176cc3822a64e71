/** When Messages are delivered, and what a stored Succeeded means. */
module MessageSafety {
  import opened Core
  import opened Edits
  import opened Message

  predicate Delivered(log: seq<LogEvent>, i: nat) { AnsweredOk(log, Deliver, i) }

  /** The decision to deliver is on record. */
  predicate Decided(log: seq<LogEvent>) {
    exists p :: 0 <= p < |log| && log[p] == Stored(Succeeding)
  }

  // ---------------------------------------------------------------------
  // The invariant

  ghost predicate Backed(s: State, bs: seq<Branch>) {
    forall i :: 0 <= i < |bs| && bs[i].status.Succeeded? ==> Delivered(s.log, i)
  }

  predicate PastDecision(status: TransactionStatus) {
    status.Succeeding? || status.Succeeded? || status.Failed?
  }

  ghost predicate StoredOk(s: State) {
    && (Decided(s.log) ==> PastDecision(s.stored.status))
    && (PastDecision(s.stored.status) || Undecided(s.stored) || s.stored.status.Aborted?)
    && (s.stored.status.Succeeding? ==> Decided(s.log))
    && Backed(s, s.stored.branches)
    && (s.stored.status.Succeeded? ==>
          forall i :: 0 <= i < |s.stored.branches| ==> Delivered(s.log, i) || i in s.skipped)
    && (s.stored.options.concurrent ==> s.skipped == {})
  }

  ghost predicate EventOk(s: State, e: LogEvent, before: seq<LogEvent>) {
    && (e.Issued? ==> Decided(before) && DispatchAt(s.stored) <= e.at)
    && (e == Stored(Aborted) ==> !Decided(before))
  }

  ghost predicate LogOk(s: State) {
    forall p :: 0 <= p < |s.log| ==> EventOk(s, s.log[p], s.log[..p])
  }

  /** A worker's copy. */
  ghost predicate Copy(s: State, tx: Transaction) {
    && tx.createdAt == s.stored.createdAt && tx.options == s.stored.options
    && |tx.branches| == |s.stored.branches|
    && Backed(s, tx.branches)
    && tx.revision <= s.stored.revision
    && (tx.revision == s.stored.revision ==>
          && !s.stored.status.IsTerminal()
          && (PastDecision(tx.status) || (Undecided(s.stored) && (Undecided(tx) || tx.status.Aborted?))))
  }

  ghost predicate Delivering(s: State, tx: Transaction) {
    Copy(s, tx) && tx.status.Succeeding? && Decided(s.log) && DispatchAt(s.stored) <= s.now
  }

  /** The first k branches are done or were passed over. */
  ghost predicate DoneBelow(s: State, tx: Transaction, k: nat) {
    forall i :: 0 <= i < k && i < |tx.branches| ==> tx.branches[i].status.Succeeded? || i in s.skipped
  }

  /** Every branch outside the layer is done. */
  ghost predicate DoneOutside(tx: Transaction, layer: set<nat>) {
    forall i :: 0 <= i < |tx.branches| ==> tx.branches[i].status.Succeeded? || i in layer
  }

  ghost predicate WorkerOk(s: State, wk: Worker) {
    match wk
    case Idle => true
    case Chosen(_) => true
    case Persisting(tx, next) =>
      && Copy(s, tx)
      && (tx.status.Succeeded? ==> DoneBelow(s, tx, |tx.branches|) && next.Return?)
      && (!next.Return? ==> tx.status.Succeeding?)
      && (next.InvokeAll? ==> Delivering(s, tx) && DoneOutside(tx, set i | i in next.layer))
    case AtClock(tx) => Copy(s, tx) && tx.status.Succeeding? && Decided(s.log)
    case InOrder(tx, k) => Delivering(s, tx) && DoneBelow(s, tx, k) && !tx.options.concurrent
    case InOrderCall(tx, k, _) =>
      Delivering(s, tx) && DoneBelow(s, tx, k) && k < |tx.branches| && !tx.options.concurrent
    case Claiming(tx, layer, k) => Delivering(s, tx) && DoneOutside(tx, set i | i in layer)
    case Releasing(_, _) => true
    case Calling(tx, calls, failed) =>
      && Delivering(s, tx)
      && (failed || DoneOutside(tx, calls.Keys))
      && (forall i :: i in calls && calls[i] == Replied(true) ==> Delivered(s.log, i))
  }

  ghost predicate Inv(s: State) {
    StoredOk(s) && LogOk(s) && forall w :: w in s.workers ==> WorkerOk(s, s.workers[w])
  }

  // ---------------------------------------------------------------------
  // Growth

  /** s' is s with more time, more log, more skips; nothing stored. */
  ghost predicate Later(s: State, s': State) {
    && s'.stored == s.stored && s.skipped <= s'.skipped && s.now <= s'.now
    && |s.log| <= |s'.log| && s'.log[..|s.log|] == s.log
  }

  lemma LongerLog(a: seq<LogEvent>, b: seq<LogEvent>)
    requires |a| <= |b| && b[..|a|] == a
    ensures Decided(a) ==> Decided(b)
    ensures forall i :: Delivered(a, i) ==> Delivered(b, i)
  {
  }

  lemma WorkerLater(s: State, s': State, wk: Worker)
    requires Later(s, s') && WorkerOk(s, wk)
    ensures WorkerOk(s', wk)
  {
  }

  lemma StoredLater(s: State, s': State)
    requires Later(s, s') && StoredOk(s)
    requires Decided(s'.log) ==> Decided(s.log)
    requires s.stored.options.concurrent ==> s'.skipped == {}
    ensures StoredOk(s')
  {
  }

  /** A step of one worker that stores nothing. */
  lemma LocalStep(s: State, s': State, w: nat, wk: Worker)
    requires Inv(s) && Later(s, s') && s'.workers == s.workers[w := wk]
    requires WorkerOk(s', wk) && LogOk(s')
    requires Decided(s'.log) ==> Decided(s.log)
    requires s.stored.options.concurrent ==> s'.skipped == {}
    ensures Inv(s')
  {
    StoredLater(s, s');
    forall v | v in s'.workers ensures WorkerOk(s', s'.workers[v]) {
      if v != w { WorkerLater(s, s', s.workers[v]); }
    }
  }

  lemma SameLog(s: State, s': State)
    requires LogOk(s) && s'.log == s.log && DispatchAt(s'.stored) == DispatchAt(s.stored)
    ensures LogOk(s')
  {
  }

  /** A worker moves, barriers change, nothing is logged. */
  lemma Move(s: State, s': State, w: nat, wk: Worker)
    requires Inv(s) && WorkerOk(s', wk)
    requires s' == s.(held := s'.held, workers := s.workers[w := wk])
    ensures Inv(s')
  {
  }

  lemma LogAppend(s: State, s': State, e: LogEvent)
    requires LogOk(s) && s'.log == s.log + [e] && EventOk(s, e, s.log)
    requires DispatchAt(s'.stored) == DispatchAt(s.stored)
    ensures LogOk(s')
  {
    forall p | 0 <= p < |s'.log| ensures EventOk(s', s'.log[p], s'.log[..p]) {
      if p < |s.log| {
        assert s'.log[p] == s.log[p] && s'.log[..p] == s.log[..p];
        assert EventOk(s, s.log[p], s.log[..p]);
      } else {
        assert s'.log[..p] == s.log;
      }
    }
  }

  lemma DecidedAppend(log: seq<LogEvent>, e: LogEvent)
    ensures Decided(log + [e]) <==> Decided(log) || e == Stored(Succeeding)
  {
    var b := log + [e];
    if p :| 0 <= p < |log| && log[p] == Stored(Succeeding) { assert b[p] == log[p]; }
    if e == Stored(Succeeding) { assert b[|log|] == e; }
    if p :| 0 <= p < |b| && b[p] == Stored(Succeeding) { if p < |log| { assert log[p] == b[p]; } }
  }

  // ---------------------------------------------------------------------
  // Requests and writes

  lemma BackedBy(s: State, a: seq<Branch>, b: seq<Branch>)
    requires Backed(s, a) && |b| == |a|
    requires forall i :: 0 <= i < |b| ==> b[i].status.Succeeded? ==> a[i].status.Succeeded?
    ensures Backed(s, b)
  {
  }

  lemma BeginOk(s: State, request: Request)
    requires Inv(s)
    ensures WorkerOk(s, BeginRequest(s.stored, request))
  {
  }

  lemma AcceptOthers(s: State, tx: Transaction, time: nat, wk: Worker)
    requires Inv(s) && WorkerOk(s, wk) && tx.revision == s.stored.revision < MAX_U64
    requires Copy(s, tx)
    ensures WorkerOk(Accept(s, tx, time), wk)
  {
    var a := Accept(s, tx, time);
    assert a.log[..|s.log|] == s.log;
    LongerLog(s.log, a.log);
  }

  lemma AcceptStored(s: State, tx: Transaction, time: nat)
    requires Inv(s) && tx.revision == s.stored.revision < MAX_U64
    requires WorkerOk(s, Persisting(tx, Return)) || (Copy(s, tx) && tx.status.Succeeding?)
    ensures StoredOk(Accept(s, tx, time)) && LogOk(Accept(s, tx, time))
  {
    var a := Accept(s, tx, time);
    assert a.log[..|s.log|] == s.log;
    LongerLog(s.log, a.log);
    DecidedAppend(s.log, Stored(tx.status));
    LogAppend(s, a, Stored(tx.status));
  }

  lemma ContinueOk(s: State, tx: Transaction, next: Then, time: nat)
    requires Inv(s) && WorkerOk(s, Persisting(tx, next)) && tx.revision == s.stored.revision < MAX_U64
    ensures WorkerOk(Accept(s, tx, time), Continue(tx.(revision := Next64(tx.revision)), next))
  {
    var a := Accept(s, tx, time);
    assert a.log[..|s.log|] == s.log;
    LongerLog(s.log, a.log);
    DecidedAppend(s.log, Stored(tx.status));
    if next.InvokeAll? { assert (map i | i in next.layer :: Spawned).Keys == set i | i in next.layer; }
  }

  lemma PersistKeeps(s: State, w: nat, time: nat)
    requires Inv(s) && s.stored.revision < MAX_U64
    ensures Inv(PersistStep(s, w, time))
  {
    var wk := WorkerAt(s, w);
    if wk.Persisting? {
      assert WorkerOk(s, wk);
      var s' := PersistStep(s, w, time);
      if wk.tx.revision != s.stored.revision {
        Move(s, s', w, Idle);
      } else {
        var a := Accept(s, wk.tx, time);
        AcceptStored(s, wk.tx, time);
        ContinueOk(s, wk.tx, wk.next, time);
        SameLog(a, s');
        assert StoredOk(s');
        forall v | v in s'.workers ensures WorkerOk(s', s'.workers[v]) {
          if v != w { AcceptOthers(s, wk.tx, time, s.workers[v]); }
          WorkerLater(a, s', s'.workers[v]);
        }
      }
    }
  }

  // ---------------------------------------------------------------------
  // Delivery

  lemma StartOk(s: State, tx: Transaction)
    requires Delivering(s, tx)
    ensures WorkerOk(s, StartDelivery(tx))
  {
    forall i: nat | i < |tx.branches| ensures tx.branches[i].status.Succeeded? || i in Undelivered(tx.branches) {
    }
  }

  lemma InOrderKeeps(s: State, w: nat)
    requires Inv(s) && WorkerAt(s, w).InOrder?
    ensures Inv(AdvanceStep(s, w))
  {
    var wk := WorkerAt(s, w);
    assert WorkerOk(s, wk);
    var s' := AdvanceStep(s, w);
    var tx, k := wk.tx, wk.k;
    if k < |tx.branches| && !tx.branches[k].status.Succeeded? {
      BackedBy(s, tx.branches, tx.branches[k := StartRunning(tx.branches[k])]);
    }
    SameLog(s, s');
    LocalStep(s, s', w, s'.workers[w]);
  }

  lemma ClaimingKeeps(s: State, w: nat)
    requires Inv(s) && WorkerAt(s, w).Claiming?
    ensures Inv(AdvanceStep(s, w))
  {
    var wk := WorkerAt(s, w);
    assert WorkerOk(s, wk);
    var s' := AdvanceStep(s, w);
    if s' != s {
      if wk.claimed == |wk.layer| {
        BackedBy(s, wk.tx.branches, MarkRunning(wk.tx, wk.layer).branches);
      }
      Move(s, s', w, s'.workers[w]);
    }
  }

  lemma AdvanceKeeps(s: State, w: nat)
    requires Inv(s)
    ensures Inv(AdvanceStep(s, w))
  {
    var wk := WorkerAt(s, w);
    match wk
    case AtClock(tx) =>
      assert WorkerOk(s, wk);
      if Due(tx, s.now) { StartOk(s, tx); }
      var s' := AdvanceStep(s, w);
      WorkerLater(s, s', s'.workers[w]);
      Move(s, s', w, s'.workers[w]);
    case InOrder(_, _) => InOrderKeeps(s, w);
    case Claiming(_, _, _) => ClaimingKeeps(s, w);
    case _ =>
  }

  lemma IssueKeeps(s: State, w: nat, i: nat)
    requires Inv(s)
    ensures Inv(IssueStep(s, w, i))
  {
    var s' := IssueStep(s, w, i);
    if s' != s {
      var wk := WorkerAt(s, w);
      assert WorkerOk(s, wk);
      var e := s'.log[|s.log|];
      assert s'.log == s.log + [e];
      LogAppend(s, s', e);
      DecidedAppend(s.log, e);
      assert Later(s, s');
      WorkerLater(s, s', wk);
      if wk.Calling? { assert wk.calls[i := Open].Keys == wk.calls.Keys; }
      LocalStep(s, s', w, s'.workers[w]);
    }
  }

  lemma AnsweredNow(s: State, s': State, i: nat)
    requires |s'.log| == |s.log| + 1 && s'.log[|s.log|].Answered?
    requires s'.log[|s.log|].op == Deliver && s'.log[|s.log|].index == i && s'.log[|s.log|].ok
    ensures Delivered(s'.log, i)
  {
  }

  lemma AnswerInOrderKeeps(s: State, w: nat, i: nat, ok: bool)
    requires Inv(s) && WorkerAt(s, w).InOrderCall?
    ensures Inv(AnswerStep(s, w, i, ok))
  {
    var s' := AnswerStep(s, w, i, ok);
    if s' != s {
      var wk := WorkerAt(s, w);
      assert WorkerOk(s, wk);
      var e := s'.log[|s.log|];
      assert s'.log == s.log + [e];
      LogAppend(s, s', e);
      DecidedAppend(s.log, e);
      assert Later(s, s');
      WorkerLater(s, s', wk);
      if ok { AnsweredNow(s, s', i); }
      LocalStep(s, s', w, s'.workers[w]);
    }
  }

  lemma AnswerAllKeeps(s: State, w: nat, i: nat, ok: bool)
    requires Inv(s) && WorkerAt(s, w).Calling?
    ensures Inv(AnswerStep(s, w, i, ok))
  {
    var s' := AnswerStep(s, w, i, ok);
    if s' != s {
      var wk := WorkerAt(s, w);
      assert WorkerOk(s, wk);
      var e := s'.log[|s.log|];
      assert s'.log == s.log + [e];
      LogAppend(s, s', e);
      DecidedAppend(s.log, e);
      assert Later(s, s');
      WorkerLater(s, s', wk);
      if ok { AnsweredNow(s, s', i); }
      assert wk.calls[i := Replied(ok)].Keys == wk.calls.Keys;
      LocalStep(s, s', w, s'.workers[w]);
    }
  }

  lemma JoinKeeps(s: State, w: nat, i: nat, retryAt: nat)
    requires Inv(s)
    ensures Inv(JoinStep(s, w, i, retryAt))
  {
    var s' := JoinStep(s, w, i, retryAt);
    if s' != s {
      var wk := WorkerAt(s, w);
      assert WorkerOk(s, wk);
      if wk.InOrderCall? {
        BackedBy(s, wk.tx.branches, Put(wk.tx, i, BranchStatus.Failed, Some(retryAt)).branches);
      } else if wk.calls[i] == Replied(false) {
        BackedBy(s, wk.tx.branches, Put(wk.tx, i, BranchStatus.Failed, Some(retryAt)).branches);
      }
      Move(s, s', w, s'.workers[w]);
    }
  }

  lemma EndLayerKeeps(s: State, w: nat)
    requires Inv(s)
    ensures Inv(EndLayerStep(s, w))
  {
  }

  lemma TimePasses(s: State, millis: nat)
    requires Inv(s)
    ensures Inv(s.(now := s.now + millis))
  {
    var s' := s.(now := s.now + millis);
    SameLog(s, s');
    StoredLater(s, s');
    forall v | v in s'.workers ensures WorkerOk(s', s'.workers[v]) { WorkerLater(s, s', s.workers[v]); }
  }

  lemma BeginKeeps(s: State, w: nat, request: Request)
    requires Inv(s)
    ensures Inv(Goto(s, w, BeginRequest(s.stored, request)))
  {
    var wk := BeginRequest(s.stored, request);
    BeginOk(s, request);
    Move(s, Goto(s, w, wk), w, wk);
  }

  lemma StepKeeps(s: State, e: Event)
    requires Inv(s) && s.stored.revision < MAX_U64
    ensures Inv(Step(s, e))
  {
    var s' := Step(s, e);
    match e
    case Pass(millis) => TimePasses(s, millis);
    case Begin(w, request) =>
      if WorkerAt(s, w).Idle? { BeginKeeps(s, w, request); }
    case Recover(w, _) => if s' != s { Move(s, s', w, s'.workers[w]); }
    case Load(w) => if WorkerAt(s, w).Chosen? { BeginKeeps(s, w, WorkerAt(s, w).request); }
    case Persist(w, time) => PersistKeeps(s, w, time);
    case Advance(w) => AdvanceKeeps(s, w);
    case Release(w) => if s' != s { Move(s, s', w, s'.workers[w]); }
    case Issue(w, i) => IssueKeeps(s, w, i);
    case Answer(w, i, ok) =>
      if WorkerAt(s, w).InOrderCall? { AnswerInOrderKeeps(s, w, i, ok); }
      if WorkerAt(s, w).Calling? { AnswerAllKeeps(s, w, i, ok); }
    case Join(w, i, retryAt) => JoinKeeps(s, w, i, retryAt);
    case EndLayer(w) => EndLayerKeeps(s, w);
    case Crash(w) => Move(s, s', w, Idle);
  }

  // ---------------------------------------------------------------------
  // Whole runs

  lemma {:induction false} RevisionMonotone(s: State, es: seq<Event>)
    ensures s.stored.revision <= Exec(s, es).stored.revision
    decreases |es|
  {
    if es != [] { RevisionMonotone(Step(s, es[0]), es[1..]); }
  }

  lemma {:induction false} ExecKeeps(s: State, es: seq<Event>)
    requires Inv(s) && Exec(s, es).stored.revision < MAX_U64
    ensures Inv(Exec(s, es))
    decreases |es|
  {
    if es != [] {
      RevisionMonotone(s, es);
      StepKeeps(s, es[0]);
      ExecKeeps(Step(s, es[0]), es[1..]);
    }
  }

  lemma RunInv(s: State, es: seq<Event>)
    requires Message.Fresh(s) && Exec(s, es).stored.revision < MAX_U64
    ensures Inv(Exec(s, es))
  {
    assert forall i :: 0 <= i < |s.stored.branches| ==> s.stored.branches[i] in s.stored.branches;
    ExecKeeps(s, es);
  }

  /** Creation time and delay are fixed at submission. */
  lemma {:induction false} TermsAreFixed(s: State, es: seq<Event>)
    requires Inv(s) && Exec(s, es).stored.revision < MAX_U64
    ensures Exec(s, es).stored.createdAt == s.stored.createdAt && Exec(s, es).stored.options == s.stored.options
    decreases |es|
  {
    if es != [] {
      RevisionMonotone(s, es);
      StepKeeps(s, es[0]);
      if es[0].Persist? && es[0].worker in s.workers { assert WorkerOk(s, s.workers[es[0].worker]); }
      TermsAreFixed(Step(s, es[0]), es[1..]);
    }
  }

  /** Every call is made after Succeeding was stored, and not before the submitted creation time plus
      delay, which never change; after any call, Aborted is never stored. */
  lemma CalledOnlyWhenDecidedAndDue(s: State, es: seq<Event>, p: nat)
    requires Message.Fresh(s) && Exec(s, es).stored.revision < MAX_U64
    requires p < |Exec(s, es).log| && Exec(s, es).log[p].Issued?
    ensures exists q :: 0 <= q < p && Exec(s, es).log[q] == Stored(Succeeding)
    ensures DispatchAt(s.stored) <= Exec(s, es).log[p].at
    ensures forall q :: p < q < |Exec(s, es).log| ==> Exec(s, es).log[q] != Stored(Aborted)
    ensures !Exec(s, es).stored.status.Aborted?
  {
    RunInv(s, es);
    RevisionMonotone(s, es);
    RunInv(s, []);
    TermsAreFixed(s, es);
    var end := Exec(s, es);
    assert EventOk(end, end.log[p], end.log[..p]);
    var d :| 0 <= d < p && end.log[..p][d] == Stored(Succeeding);
    assert end.log[d] == Stored(Succeeding);
    forall q | p < q < |end.log| ensures end.log[q] != Stored(Aborted) {
      assert EventOk(end, end.log[q], end.log[..q]);
      assert end.log[..q][d] == Stored(Succeeding);
    }
  }

  /** What a stored Succeeded means: every branch was delivered, or an in-order pass went past it
      while its barrier was held; with concurrent delivery, every branch was delivered. */
  lemma SucceededMeansDelivered(s: State, es: seq<Event>, i: nat)
    requires Message.Fresh(s) && Exec(s, es).stored.revision < MAX_U64
    requires Exec(s, es).stored.status.Succeeded? && i < |Exec(s, es).stored.branches|
    ensures AnsweredOk(Exec(s, es).log, Deliver, i) || i in Exec(s, es).skipped
    ensures Exec(s, es).stored.options.concurrent ==> AnsweredOk(Exec(s, es).log, Deliver, i)
  {
    RunInv(s, es);
    assert Delivered(Exec(s, es).log, i) || i in Exec(s, es).skipped;
  }

  // ---------------------------------------------------------------------
  // In-order delivery can pass over a branch

  lemma {:induction false} TraceRuns(trace: seq<State>, es: seq<Event>)
    requires |trace| == |es| + 1
    requires forall k :: 0 <= k < |es| ==> trace[k + 1] == Step(trace[k], es[k])
    ensures Exec(trace[0], es) == trace[|es|]
    decreases |es|
  {
    if es != [] {
      assert trace[1] == Step(trace[0], es[0]);
      TraceRuns(trace[1..], es[1..]);
    }
  }

  lemma {:induction false} ExecAppend(s: State, a: seq<Event>, b: seq<Event>)
    ensures Exec(s, a + b) == Exec(Exec(s, a), b)
    decreases |a|
  {
    if a == [] {
      assert a + b == b;
    } else {
      assert (a + b)[1..] == a[1..] + b;
      ExecAppend(Step(s, a[0]), a[1..], b);
    }
  }

  // Two overlapping dispatches of a one-branch Message, with no crash: the second takes the first
  // one's open call for a finished one and stores Succeeded; then the only call fails.
  const FIRST_DECIDES: seq<Event> := [Begin(0, Dispatch), Persist(0, 0)]
  const FIRST_CALLS: seq<Event> := [Advance(0), Advance(0), Issue(0, 0)]
  const SECOND_PASSES: seq<Event> := [Begin(1, Dispatch), Advance(1), Advance(1), Advance(1), Persist(1, 0)]
  const FIRST_FAILS: seq<Event> := [Answer(0, 0, false)]
  const FIRST_JOINS: seq<Event> := [Join(0, 0, 0)]
  const FIRST_RETURNS: seq<Event> := [Persist(0, 0)]

  predicate NoAnswer(log: seq<LogEvent>) {
    forall p :: 0 <= p < |log| ==> !log[p].Answered?
  }

  predicate OneOpen(s: State, tx: Transaction) {
    && |tx.branches| == 1 && WorkerAt(s, 0) == InOrderCall(tx, 0, Open) && tx.revision <= s.stored.revision
    && NoAnswer(s.log)
  }

  predicate SecondMayPass(s: State) {
    && s.stored.status.Succeeding? && s.stored.revision < MAX_U64
    && !s.stored.options.concurrent && s.stored.options.delay.None?
    && |s.stored.branches| == 1 && !s.stored.branches[0].status.Succeeded?
    && KeyOf(s.stored, 0) in s.held && WorkerAt(s, 1).Idle?
  }

  /** Worker 0 stored the decision and is about to look at the clock. */
  predicate FirstDecided(s: State, tx: Transaction) {
    && WorkerAt(s, 0) == AtClock(tx) && WorkerAt(s, 1).Idle? && s.held == {} && s.log == [Stored(Succeeding)]
    && tx.revision <= s.stored.revision < MAX_U64 && s.stored.status.Succeeding? && tx.options == s.stored.options
    && !tx.options.concurrent && tx.options.delay.None?
    && tx.branches == s.stored.branches && |tx.branches| == 1 && !tx.branches[0].status.Succeeded?
  }

  lemma FirstDecides(s: State) returns (tx: Transaction)
    requires Message.Fresh(s) && |s.stored.branches| == 1 && s.stored.revision < MAX_U64 - 1
    requires !s.stored.options.concurrent && s.stored.options.delay.None?
    ensures FirstDecided(Exec(s, FIRST_DECIDES), tx)
  {
    assert s.stored.branches[0] in s.stored.branches;
    var s1 := Step(s, FIRST_DECIDES[0]);
    tx := s.stored.(status := Succeeding, revision := s.stored.revision + 1);
    TraceRuns([s, s1, Step(s1, FIRST_DECIDES[1])], FIRST_DECIDES);
  }

  lemma FirstCalls(s: State, t: Transaction) returns (tx: Transaction)
    requires FirstDecided(s, t)
    ensures OneOpen(Exec(s, FIRST_CALLS), tx) && SecondMayPass(Exec(s, FIRST_CALLS))
  {
    var s1 := Step(s, FIRST_CALLS[0]);
    assert WorkerAt(s1, 0) == InOrder(t, 0);
    var s2 := Step(s1, FIRST_CALLS[1]);
    tx := t.(branches := t.branches[0 := StartRunning(t.branches[0])]);
    assert WorkerAt(s2, 0) == InOrderCall(tx, 0, Spawned);
    TraceRuns([s, s1, s2, Step(s2, FIRST_CALLS[2])], FIRST_CALLS);
  }

  lemma SecondPasses(s: State, tx: Transaction)
    requires OneOpen(s, tx) && SecondMayPass(s)
    ensures var t := Exec(s, SECOND_PASSES);
            t.stored.status.Succeeded? && 0 in t.skipped && OneOpen(t, tx) && tx.revision < t.stored.revision
  {
    var s1 := Step(s, SECOND_PASSES[0]);
    assert WorkerAt(s1, 1) == AtClock(s.stored);
    var s2 := Step(s1, SECOND_PASSES[1]);
    assert WorkerAt(s2, 1) == InOrder(s.stored, 0);
    var s3 := Step(s2, SECOND_PASSES[2]);
    assert WorkerAt(s3, 1) == InOrder(s.stored, 1);
    var s4 := Step(s3, SECOND_PASSES[3]);
    assert WorkerAt(s4, 1).Persisting?;
    TraceRuns([s, s1, s2, s3, s4, Step(s4, SECOND_PASSES[4])], SECOND_PASSES);
  }

  predicate FirstLost(s: State, was: State, tx: Transaction)
    requires |tx.branches| == 1
  {
    && s.stored == was.stored && s.skipped == was.skipped
    && s.log == was.log + [Answered(Deliver, 0, tx.branches[0].id, false)]
  }

  lemma FirstJoins(s: State, tx: Transaction)
    requires |tx.branches| == 1 && WorkerAt(s, 0) == InOrderCall(tx, 0, Replied(false))
    ensures var t := Exec(s, FIRST_JOINS);
            && t.stored == s.stored && t.skipped == s.skipped && t.log == s.log
            && WorkerAt(t, 0).Persisting? && WorkerAt(t, 0).tx.revision == tx.revision
  {
  }

  lemma FirstFails(s: State, tx: Transaction)
    requires OneOpen(s, tx)
    ensures FirstLost(Exec(s, FIRST_FAILS), s, tx)
    ensures WorkerAt(Exec(s, FIRST_FAILS), 0) == InOrderCall(tx, 0, Replied(false))
  {
  }

  lemma FirstReturns(s: State)
    requires WorkerAt(s, 0).Persisting? && WorkerAt(s, 0).tx.revision < s.stored.revision
    ensures var t := Exec(s, FIRST_RETURNS);
            t.stored == s.stored && t.skipped == s.skipped && t.log == s.log
  {
  }

  /** In-order dispatch can end in Succeeded without a successful delivery, even with no crash. */
  lemma OverlapLosesDelivery(s: State)
    requires Message.Fresh(s) && |s.stored.branches| == 1 && s.stored.revision < MAX_U64 - 1
    requires !s.stored.options.concurrent && s.stored.options.delay.None?
    ensures var end := Exec(s, FIRST_DECIDES + FIRST_CALLS + SECOND_PASSES + FIRST_FAILS + FIRST_JOINS + FIRST_RETURNS);
            end.stored.status.Succeeded? && !AnsweredOk(end.log, Deliver, 0) && 0 in end.skipped
  {
    var decided := FirstDecides(s);
    var tx := FirstCalls(Exec(s, FIRST_DECIDES), decided);
    ExecAppend(s, FIRST_DECIDES, FIRST_CALLS);
    var called := FIRST_DECIDES + FIRST_CALLS;
    SecondPasses(Exec(s, called), tx);
    ExecAppend(s, called, SECOND_PASSES);
    FirstFails(Exec(s, called + SECOND_PASSES), tx);
    ExecAppend(s, called + SECOND_PASSES, FIRST_FAILS);
    var failed := called + SECOND_PASSES + FIRST_FAILS;
    FirstJoins(Exec(s, failed), tx);
    ExecAppend(s, failed, FIRST_JOINS);
    FirstReturns(Exec(s, failed + FIRST_JOINS));
    ExecAppend(s, failed + FIRST_JOINS, FIRST_RETURNS);
  }

  // ---------------------------------------------------------------------
  // Recovery alone never delivers

  predicate OnlyRecovery(es: seq<Event>) {
    forall k :: 0 <= k < |es| ==> !es[k].Begin?
  }

  ghost predicate Passive(s: State) {
    && (s.stored.status.Submitted? || s.stored.status.Prepared? || s.stored.status.Aborted?)
    && (forall p :: 0 <= p < |s.log| ==> s.log[p].Stored? && s.log[p].status != Succeeding)
    && forall w :: w in s.workers ==>
         match s.workers[w]
         case Idle => true
         case Chosen(request) => request.Prepare? || request.Abort?
         case Persisting(tx, next) => (tx.status.Prepared? || tx.status.Aborted?) && next.Return?
         case _ => false
  }

  lemma StepPassive(s: State, e: Event)
    requires Passive(s) && !e.Begin?
    ensures Passive(Step(s, e))
  {
  }

  lemma {:induction false} PassiveRuns(s: State, es: seq<Event>)
    requires Passive(s) && OnlyRecovery(es)
    ensures Passive(Exec(s, es))
    decreases |es|
  {
    if es != [] {
      StepPassive(s, es[0]);
      PassiveRuns(Step(s, es[0]), es[1..]);
    }
  }

  /** Without an explicit request, recovery ticks never store the decision to deliver and never call
      a branch, whatever times their clock shows. */
  lemma RecoveryNeverDelivers(s: State, es: seq<Event>)
    requires Message.Fresh(s) && OnlyRecovery(es)
    ensures forall p :: 0 <= p < |Exec(s, es).log| ==> Exec(s, es).log[p].Stored?
    ensures !Exec(s, es).stored.status.Succeeding? && !Exec(s, es).stored.status.Succeeded?
  {
    PassiveRuns(s, es);
  }
}
