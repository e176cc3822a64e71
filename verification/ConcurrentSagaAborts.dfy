/** Which aborts of a concurrent Saga leave a success uncompensated. The record is what an abort pass
    unwinds; an action that succeeds without being on record when the abort is stored is never
    compensated. Aborts that find every success on record, and no call open, compensate them all. */
module ConcurrentSagaAborts {
  import opened Core
  import opened Edits
  import opened DependencyGraph
  import opened Layers
  import opened ConcurrentSaga
  import opened ConcurrentSagaSafety

  predicate TurnedBack(s: State) { s.stored.status.Aborting? || s.stored.status.Aborted? }

  /** A worker has a call of action i that may still be answered with success. */
  predicate Pending(wk: Worker, i: nat) {
    wk.Calling? && wk.op == Action && i in wk.calls && !wk.calls[i].Replied? && i < |wk.tx.branches|
  }

  /** Action i has succeeded, or may yet. */
  ghost predicate MayHaveSucceeded(s: State, i: nat) {
    ActionOk(s.log, i) || exists v :: Pending(WorkerAt(s, v), i)
  }

  /** What the store is about to accept in this event. */
  function Accepted(s: State, e: Event): Option<Transaction> {
    if !e.Persist? then None
    else
      var wk := WorkerAt(s, e.worker);
      if (wk.Persisting? || wk.Administering?) && wk.tx.revision == s.stored.revision then Some(wk.tx) else None
  }

  /** The first write that turns the Saga back. */
  predicate Aborts(s: State, e: Event) {
    && !TurnedBack(s) && Accepted(s, e).Some?
    && (Accepted(s, e).value.status.Aborting? || Accepted(s, e).value.status.Aborted?)
  }

  /** Whatever may have succeeded is on record in what the abort stores. */
  ghost predicate Clean(s: State, tx: Transaction) {
    forall i: nat :: MayHaveSucceeded(s, i) ==> i < |tx.branches| && Recorded(tx.branches[i])
  }

  ghost predicate AbortsCleanly(s: State, es: seq<Event>)
    decreases |es|
  {
    es != [] ==>
      && (Aborts(s, es[0]) ==> Clean(s, Accepted(s, es[0]).value))
      && AbortsCleanly(Step(s, es[0]), es[1..])
  }

  // ---------------------------------------------------------------------
  // Clean aborts compensate every success

  ghost predicate OnRecord(s: State) {
    TurnedBack(s) ==> forall i: nat :: MayHaveSucceeded(s, i) ==> i in s.recorded
  }

  /** Nobody starts an action, and what was recorded stays so. */
  lemma StaysOnRecord(s: State, s': State)
    requires OnRecord(s) && TurnedBack(s) && s.recorded <= s'.recorded
    requires forall i: nat :: MayHaveSucceeded(s', i) ==> MayHaveSucceeded(s, i)
    ensures OnRecord(s')
  {
  }

  lemma AcceptOnRecord(s: State, w: nat, now: nat)
    requires Inv(s) && OnRecord(s) && Accepted(s, Persist(w, now)).Some?
    requires Aborts(s, Persist(w, now)) ==> Clean(s, Accepted(s, Persist(w, now)).value)
    ensures OnRecord(PersistStep(s, w, now))
  {
    var wk, s' := WorkerAt(s, w), PersistStep(s, w, now);
    assert WorkerOk(s, wk);
    if TurnedBack(s') {
      forall i: nat | MayHaveSucceeded(s', i) ensures i in s'.recorded {
        assert MayHaveSucceeded(s, i) by {
          if ActionOk(s'.log, i) {
            var p :| 0 <= p < |s'.log| && s'.log[p].Answered? && s'.log[p].op == Action && s'.log[p].index == i && s'.log[p].ok;
            assert s.log[p] == s'.log[p];
          } else {
            var v :| Pending(WorkerAt(s', v), i);
            assert v != w;
            assert Pending(WorkerAt(s, v), i);
          }
        }
      }
    }
  }

  lemma StepOnRecord(s: State, e: Event)
    requires Inv(s) && OnRecord(s) && (Aborts(s, e) ==> Clean(s, Accepted(s, e).value))
    ensures OnRecord(Step(s, e))
  {
    var s' := Step(s, e);
    if Accepted(s, e).Some? {
      AcceptOnRecord(s, e.worker, e.now);
    } else if TurnedBack(s') {
      forall i: nat | MayHaveSucceeded(s', i) ensures MayHaveSucceeded(s, i) { SucceededBefore(s, e, i); }
      StaysOnRecord(s, s');
    }
  }

  lemma PendingBefore(s: State, e: Event, i: nat, v: nat)
    requires Accepted(s, e).None? && Pending(WorkerAt(Step(s, e), v), i)
    ensures Pending(WorkerAt(s, v), i)
  {
  }

  lemma OkBefore(s: State, e: Event, i: nat)
    requires Accepted(s, e).None? && ActionOk(Step(s, e).log, i)
    ensures ActionOk(s.log, i) || (e.Answer? && Pending(WorkerAt(s, e.worker), i))
  {
    var log := Step(s, e).log;
    var p :| 0 <= p < |log| && log[p].Answered? && log[p].op == Action && log[p].index == i && log[p].ok;
    if p < |s.log| { assert s.log[p] == log[p]; }
  }

  lemma SucceededBefore(s: State, e: Event, i: nat)
    requires Accepted(s, e).None? && MayHaveSucceeded(Step(s, e), i)
    ensures MayHaveSucceeded(s, i)
  {
    if v :| Pending(WorkerAt(Step(s, e), v), i) { PendingBefore(s, e, i, v); } else { OkBefore(s, e, i); }
  }

  lemma {:induction false} ExecOnRecord(s: State, es: seq<Event>)
    requires Inv(s) && OnRecord(s) && AbortsCleanly(s, es) && Exec(s, es).stored.revision < MAX_U64
    ensures OnRecord(Exec(s, es))
    decreases |es|
  {
    if es != [] {
      ExecMonotone(s, es);
      StepOnRecord(s, es[0]);
      StepKeeps(s, es[0]);
      ExecOnRecord(Step(s, es[0]), es[1..]);
    }
  }

  /** If every abort is clean when it is stored, a stored Aborted means that every action that ever
      succeeded was compensated. */
  lemma CleanAbortsCompensate(s: State, es: seq<Event>, i: nat)
    requires ConcurrentSaga.Submitted(s) && Exec(s, es).stored.revision < MAX_U64 && AbortsCleanly(s, es)
    requires Exec(s, es).stored.status.Aborted? && AnsweredOk(Exec(s, es).log, Action, i)
    ensures AnsweredOk(Exec(s, es).log, Compensate, i)
  {
    ExecMonotone(s, es);
    RunInv(s, []);
    ExecOnRecord(s, es);
    RunInv(s, es);
    var end := Exec(s, es);
    assert MayHaveSucceeded(end, i) && i in end.recorded;
    assert CompensationOk(end.log, i);
  }

  // ---------------------------------------------------------------------
  // Unclean aborts do not

  predicate NoCompensation(log: seq<LogEvent>, i: nat) {
    forall p :: 0 <= p < |log| && !log[p].Stored? && log[p].op == Compensate ==> log[p].index != i
  }

  /** The worker cannot bring branch i back on record, nor compensate it. */
  predicate WithoutBranch(s: State, wk: Worker, i: nat) {
    match wk
    case Idle => true
    case Administering(tx) => tx.revision == s.stored.revision ==> Unrecorded(tx, i)
    case Persisting(_, tx, _) => tx.revision == s.stored.revision ==> Unrecorded(tx, i)
    case AtLoop(op, tx) => op == Compensate ==> Unrecorded(tx, i)
    case Claiming(op, tx, layer, _) => op == Compensate ==> Unrecorded(tx, i) && i !in layer
    case Releasing(_, _, _) => true
    case Calling(op, tx, calls, _, _) => op == Compensate ==> Unrecorded(tx, i) && i !in calls
  }

  predicate Unrecorded(tx: Transaction, i: nat) { i < |tx.branches| ==> !Recorded(tx.branches[i]) }

  ghost predicate Lost(s: State, i: nat) {
    && AbortStored(s) && Unrecorded(s.stored, i) && NoCompensation(s.log, i)
    && forall w :: w in s.workers ==> WithoutBranch(s, s.workers[w], i)
  }

  /** Workers with an older copy stay harmless, and writers of a current one are. */
  lemma AcceptLost(s: State, w: nat, now: nat, i: nat)
    requires Inv(s) && Lost(s, i) && s.stored.revision < MAX_U64 && Accepted(s, Persist(w, now)).Some?
    ensures Lost(PersistStep(s, w, now), i)
  {
    var wk, s' := WorkerAt(s, w), PersistStep(s, w, now);
    assert WorkerOk(s, wk) && WithoutBranch(s, wk, i);
    assert WithoutBranch(s', s'.workers[w], i) by { ContinueLost(s, wk, now, i); }
    forall v | v in s'.workers ensures WithoutBranch(s', s'.workers[v], i) {
      if v != w { assert WorkerOk(s, s.workers[v]) && WithoutBranch(s, s.workers[v], i); }
    }
  }

  lemma ContinueLost(s: State, wk: Worker, now: nat, i: nat)
    requires WorkerOk(s, wk) && (wk.Persisting? || wk.Administering?) && Unrecorded(wk.tx, i)
    requires wk.tx.revision == s.stored.revision < MAX_U64
    ensures wk.Persisting? ==>
              WithoutBranch(Accept(s, wk.tx, now), Continue(wk.op, wk.tx.(revision := Next64(wk.tx.revision)), wk.next), i)
  {
    if wk.Persisting? && wk.next.Invoke? && wk.op == Compensate {
      assert i in wk.next.layer ==> Callable(s, wk.op, wk.tx.branches, i);
    }
  }

  lemma MoveLost(s: State, s': State, w: nat, i: nat)
    requires Lost(s, i) && s'.stored == s.stored && s'.log == s.log
    requires s'.workers == s.workers[w := WorkerAt(s', w)] && WithoutBranch(s, WorkerAt(s', w), i)
    ensures Lost(s', i)
  {
    forall v | v in s'.workers ensures WithoutBranch(s', s'.workers[v], i) {
      if v != w { assert WithoutBranch(s, s.workers[v], i); }
    }
  }

  lemma CallLost(s: State, s': State, w: nat, i: nat, e: LogEvent)
    requires Lost(s, i) && s'.stored == s.stored && s'.log == s.log + [e]
    requires !e.Stored? && (e.op == Compensate ==> e.index != i)
    requires s'.workers == s.workers[w := WorkerAt(s', w)] && WithoutBranch(s, WorkerAt(s', w), i)
    ensures Lost(s', i)
  {
    forall v | v in s'.workers ensures WithoutBranch(s', s'.workers[v], i) {
      if v != w { assert WithoutBranch(s, s.workers[v], i); }
    }
  }

  lemma ClaimLost(s: State, w: nat, i: nat)
    requires Inv(s) && Lost(s, i)
    ensures Lost(ClaimStep(s, w), i)
  {
    var wk, s' := WorkerAt(s, w), ClaimStep(s, w);
    if s' != s {
      assert WithoutBranch(s, wk, i) && WorkerOk(s, wk);
      MoveLost(s, s', w, i);
    }
  }

  lemma JoinLost(s: State, w: nat, j: nat, retryAt: nat, i: nat)
    requires Inv(s) && Lost(s, i)
    ensures Lost(JoinStep(s, w, j, retryAt), i)
  {
    var wk, s' := WorkerAt(s, w), JoinStep(s, w, j, retryAt);
    if s' != s {
      assert WithoutBranch(s, wk, i);
      MoveLost(s, s', w, i);
    }
  }

  lemma EndLayerLost(s: State, w: nat, i: nat)
    requires Inv(s) && Lost(s, i)
    ensures Lost(EndLayerStep(s, w), i)
  {
    var wk, s' := WorkerAt(s, w), EndLayerStep(s, w);
    if s' != s {
      assert WithoutBranch(s, wk, i) && WorkerOk(s, wk);
      MoveLost(s, s', w, i);
    }
  }

  lemma BeginLost(s: State, w: nat, request: Request, i: nat)
    requires Lost(s, i)
    ensures Lost(Goto(s, w, BeginRequest(s.stored, request)), i)
  {
    assert WithoutBranch(s, BeginRequest(s.stored, request), i);
    MoveLost(s, Goto(s, w, BeginRequest(s.stored, request)), w, i);
  }

  lemma PersistLost(s: State, w: nat, now: nat, i: nat)
    requires Inv(s) && Lost(s, i) && s.stored.revision < MAX_U64
    ensures Lost(PersistStep(s, w, now), i)
  {
    if Accepted(s, Persist(w, now)).Some? {
      AcceptLost(s, w, now, i);
    } else if PersistStep(s, w, now) != s {
      MoveLost(s, Goto(s, w, Idle), w, i);
    }
  }

  lemma ReleaseLost(s: State, w: nat, i: nat)
    requires Lost(s, i)
    ensures Lost(ReleaseStep(s, w), i)
  {
    var s' := ReleaseStep(s, w);
    if s' != s { MoveLost(s, s', w, i); }
  }

  lemma AdvanceLost(s: State, w: nat, i: nat)
    requires Inv(s) && Lost(s, i)
    ensures Lost(Step(s, Advance(w)), i)
  {
    var wk := WorkerAt(s, w);
    if wk.AtLoop? {
      assert WithoutBranch(s, wk, i) && WorkerOk(s, wk);
      MoveLost(s, Goto(s, w, AdvanceLoop(wk.op, wk.tx)), w, i);
    }
  }

  lemma IssueLost(s: State, w: nat, j: nat, at: nat, i: nat)
    requires Lost(s, i)
    ensures Lost(IssueStep(s, w, j, at), i)
  {
    var wk, s' := WorkerAt(s, w), IssueStep(s, w, j, at);
    if CallAt(wk, j, Spawned) && HasUrl(wk.op, wk.tx.branches[j]) {
      assert WithoutBranch(s, wk, i);
      CallLost(s, s', w, i, Issued(wk.op, j, wk.tx.branches[j].id, at));
    }
  }

  lemma AnswerLost(s: State, w: nat, j: nat, ok: bool, i: nat)
    requires Lost(s, i)
    ensures Lost(AnswerStep(s, w, j, ok), i)
  {
    var wk, s' := WorkerAt(s, w), AnswerStep(s, w, j, ok);
    if CallAt(wk, j, Open) {
      assert WithoutBranch(s, wk, i);
      CallLost(s, s', w, i, Answered(wk.op, j, wk.tx.branches[j].id, ok));
    }
  }

  lemma StepLost(s: State, e: Event, i: nat)
    requires Inv(s) && Lost(s, i) && s.stored.revision < MAX_U64
    ensures Lost(Step(s, e), i)
  {
    match e
    case Begin(w, request) => if WorkerAt(s, w).Idle? { BeginLost(s, w, request, i); }
    case Persist(w, now) => PersistLost(s, w, now, i);
    case Advance(w) => AdvanceLost(s, w, i);
    case Claim(w) => ClaimLost(s, w, i);
    case Release(w) => ReleaseLost(s, w, i);
    case Issue(w, j, at) => IssueLost(s, w, j, at, i);
    case Answer(w, j, ok) => AnswerLost(s, w, j, ok, i);
    case Join(w, j, retryAt) => JoinLost(s, w, j, retryAt, i);
    case EndLayer(w) => EndLayerLost(s, w, i);
    case Crash(w) => MoveLost(s, Goto(s, w, Idle), w, i);
  }

  lemma {:induction false} ExecLost(s: State, es: seq<Event>, i: nat)
    requires Inv(s) && Lost(s, i) && Exec(s, es).stored.revision < MAX_U64
    ensures Lost(Exec(s, es), i)
    decreases |es|
  {
    if es != [] {
      ExecMonotone(s, es);
      StepLost(s, es[0], i);
      StepKeeps(s, es[0]);
      ExecLost(Step(s, es[0]), es[1..], i);
    }
  }

  /** The write of an unclean abort, at branch i. */
  lemma UncleanIsLost(s: State, e: Event, i: nat)
    requires Inv(s) && s.stored.revision < MAX_U64 && Aborts(s, e) && Unrecorded(Accepted(s, e).value, i)
    ensures Lost(Step(s, e), i)
  {
    var w := e.worker;
    var wk, s' := WorkerAt(s, w), Step(s, e);
    assert WorkerOk(s, wk);
    forall p | 0 <= p < |s.log| ensures s.log[p].Stored? || s.log[p].op != Compensate {
      assert InOrder(s, s.log[p], s.log[..p]);
    }
    ContinueLost(s, wk, e.now, i);
    forall v | v in s'.workers ensures WithoutBranch(s', s'.workers[v], i) {
      if v != w { assert WorkerOk(s, s.workers[v]); }
    }
  }

  lemma {:induction false} ExecAppend(s: State, a: seq<Event>, b: seq<Event>)
    ensures Exec(s, a + b) == Exec(Exec(s, a), b)
    decreases |a|
  {
    if a == [] {
      assert a + b == b;
    } else {
      assert (a + b)[1..] == a[1..] + b;
      ExecAppend(Step(s, a[0]), a[1..], b);
    }
  }

  /** A pending call can be answered with success, without a write. */
  lemma PendingSucceeds(s: State, v: nat, i: nat) returns (es: seq<Event>)
    requires Pending(WorkerAt(s, v), i)
    ensures ActionOk(Exec(s, es).log, i) && Exec(s, es).stored == s.stored
  {
    var s1, first := s, [];
    if WorkerAt(s, v).calls[i] == Spawned {
      s1, first := Step(s, Issue(v, i, 0)), [Issue(v, i, 0)];
      assert first[1..] == [] && Exec(s1, []) == s1;
    }
    assert Exec(s, first) == s1 && CallAt(WorkerAt(s1, v), i, Open);
    var s2 := Step(s1, Answer(v, i, true));
    assert s2.log[|s1.log|] == Answered(Action, i, WorkerAt(s1, v).tx.branches[i].id, true);
    assert [Answer(v, i, true)][1..] == [] && Exec(s2, []) == s2;
    assert Exec(s1, [Answer(v, i, true)]) == s2;
    ExecAppend(s, first, [Answer(v, i, true)]);
    es := first + [Answer(v, i, true)];
  }

  predicate LosesBranch(t: State, i: nat) {
    ActionOk(t.log, i) && !CompensationOk(t.log, i)
  }

  /** Every unclean abort can lose a compensation for good: after a success that was answered or
      pending at the write and not on record in it, no continuation ever compensates the branch. */
  lemma UncleanAbortLoses(s: State, run: seq<Event>, e: Event, i: nat) returns (es: seq<Event>)
    requires ConcurrentSaga.Submitted(s) && Exec(s, run).stored.revision < MAX_U64 - 1
    requires Aborts(Exec(s, run), e) && MayHaveSucceeded(Exec(s, run), i)
    requires Unrecorded(Accepted(Exec(s, run), e).value, i)
    ensures forall rest: seq<Event> :: Exec(Step(Exec(s, run), e), es + rest).stored.revision < MAX_U64 ==>
              LosesBranch(Exec(Step(Exec(s, run), e), es + rest), i)
  {
    var now := Exec(s, run);
    var after := Step(now, e);
    RunInv(s, run);
    StepKeeps(now, e);
    UncleanIsLost(now, e, i);
    es := [];
    assert Exec(after, []) == after;
    if ActionOk(now.log, i) {
      AnsweredOkGrows(now.log, [Stored(Accepted(now, e).value.status)], Action, i);
    } else {
      var v :| Pending(WorkerAt(now, v), i);
      assert Pending(WorkerAt(after, v), i);
      es := PendingSucceeds(after, v, i);
    }
    var reached := Exec(after, es);
    forall rest: seq<Event> | Exec(after, es + rest).stored.revision < MAX_U64 ensures LosesBranch(Exec(after, es + rest), i) {
      ExecAppend(after, es, rest);
      LostStays(after, es, rest, i);
    }
  }

  lemma LostStays(s: State, es: seq<Event>, rest: seq<Event>, i: nat)
    requires Inv(s) && Lost(s, i) && ActionOk(Exec(s, es).log, i)
    requires Exec(s, es + rest).stored.revision < MAX_U64
    ensures LosesBranch(Exec(s, es + rest), i)
  {
    ExecAppend(s, es, rest);
    ExecLost(s, es + rest, i);
    ExecMonotone(Exec(s, es), rest);
    var log := Exec(s, es + rest).log;
    var p :| 0 <= p < |Exec(s, es).log| && Exec(s, es).log[p].Answered? && Exec(s, es).log[p].op == Action
             && Exec(s, es).log[p].index == i && Exec(s, es).log[p].ok;
    assert log[p] == Exec(s, es).log[p];
  }

  // ---------------------------------------------------------------------
  // A run that loses one

  lemma RunTwo(s: State, a: Event, b: Event)
    ensures Exec(s, [a, b]) == Step(Step(s, a), b)
  {
    var s1 := Step(s, a);
    assert [a, b][1..] == [b] && [b][1..] == [];
    assert Exec(s1, [b]) == Exec(Step(s1, b), []);
  }

  const BEGINS: seq<Event> := [Begin(0, Start), Persist(0, 0)]
  const CLAIMS: seq<Event> := [Advance(0), Claim(0)]
  const SENDS: seq<Event> := [Claim(0), Persist(0, 0)]
  const SUCCEEDS: seq<Event> := [Issue(0, 0, 0), Answer(0, 0, true)]
  const ABORTS: seq<Event> := [Begin(1, Abort), Persist(1, 0)]
  const ENDS: seq<Event> := [Advance(1), Persist(1, 0)]

  /** One branch, not on record; worker 1 idle; nothing called yet. */
  predicate OneBranch(s: State) {
    && s.stored.status.Succeeding? && |s.stored.branches| == 1 && !Recorded(s.stored.branches[0])
    && WorkerAt(s, 1).Idle?
  }

  predicate OnlyStored(log: seq<LogEvent>) { forall p :: 0 <= p < |log| ==> log[p].Stored? }

  lemma KnownAlone(b: Branch)
    requires KnownDependencies([b])
    ensures forall d :: d in b.dependencies ==> d == b.id
  {
    forall d | d in b.dependencies ensures d == b.id {
      assert d in [b][0].dependencies;
      assert HasId([b], d);
    }
  }

  lemma ReadyAlone(b: Branch)
    requires WellFormed([b]) && b.status.Pending?
    ensures ReadyActions([b]) == [0]
  {
    assert [b][0] == b;
    KnownAlone(b);
    assert ActionReady([b], 0);
    var r := ReadyActions([b]);
    assert 0 in r && forall i :: i in r ==> i == 0;
    assert forall k :: 0 <= k < |r| ==> r[k] in r;
    assert |r| == 1;
  }

  lemma Begins(s: State) returns (tx: Transaction)
    requires ConcurrentSaga.Submitted(s) && |s.graph| == 1 && s.stored.revision < MAX_U64 - 4
    ensures var t := Exec(s, BEGINS);
            && OneBranch(t) && OnlyStored(t.log) && t.held == {} && WorkerAt(t, 0) == AtLoop(Action, tx)
            && tx.revision == t.stored.revision < MAX_U64 - 3
            && tx.branches == s.graph && tx.status.Succeeding?
  {
    RunTwo(s, Begin(0, Start), Persist(0, 0));
    tx := s.stored.(status := Succeeding, revision := s.stored.revision + 1);
  }

  lemma Claims(s: State, tx: Transaction)
    requires OneBranch(s) && OnlyStored(s.log) && s.held == {} && WorkerAt(s, 0) == AtLoop(Action, tx)
    requires |tx.branches| == 1 && WellFormed(tx.branches) && tx.branches[0].status.Pending?
    ensures var t := Exec(s, CLAIMS);
            OneBranch(t) && OnlyStored(t.log) && t.stored == s.stored && WorkerAt(t, 0) == Claiming(Action, tx, [0], 1)
  {
    RunTwo(s, Advance(0), Claim(0));
    var layered := Claiming(Action, tx, [0], 0);
    Layered(tx);
    assert Step(s, Advance(0)) == Goto(s, 0, layered);
    ClaimsFirst(Goto(s, 0, layered), tx);
  }

  lemma Layered(tx: Transaction)
    requires |tx.branches| == 1 && WellFormed(tx.branches) && tx.branches[0].status.Pending?
    ensures AdvanceLoop(Action, tx) == Claiming(Action, tx, [0], 0)
  {
    assert tx.branches == [tx.branches[0]];
    ReadyAlone(tx.branches[0]);
  }

  lemma ClaimsFirst(s: State, tx: Transaction)
    requires WorkerAt(s, 0) == Claiming(Action, tx, [0], 0) && |tx.branches| == 1 && s.held == {}
    ensures ClaimStep(s, 0) == Goto(s.(held := {KeyOf(tx, 0, Action)}), 0, Claiming(Action, tx, [0], 1))
  {
  }

  lemma Sends(s: State, tx: Transaction)
    requires OneBranch(s) && OnlyStored(s.log) && WorkerAt(s, 0) == Claiming(Action, tx, [0], 1)
    requires tx.revision == s.stored.revision < MAX_U64 - 3 && tx.status.Succeeding? && |tx.branches| == 1
    ensures var t := Exec(s, SENDS);
            && OneBranch(t) && OnlyStored(t.log) && t.stored.revision < MAX_U64 - 2
            && CallAt(WorkerAt(t, 0), 0, Spawned) && WorkerAt(t, 0).op == Action
  {
    RunTwo(s, Claim(0), Persist(0, 0));
    var s1 := Step(s, Claim(0));
    assert WorkerAt(s1, 0) == Persisting(Action, MarkRunning(tx, [0]), Invoke([0]));
    assert 0 in [0];
  }

  lemma Succeeds(s: State)
    requires OneBranch(s) && OnlyStored(s.log) && CallAt(WorkerAt(s, 0), 0, Spawned) && WorkerAt(s, 0).op == Action
    ensures var t := Exec(s, SUCCEEDS);
            && OneBranch(t) && t.stored == s.stored && ActionOk(t.log, 0) && NoCompensation(t.log, 0)
  {
    RunTwo(s, Issue(0, 0, 0), Answer(0, 0, true));
    var t := Exec(s, SUCCEEDS);
    assert t.log[|s.log| + 1] == Answered(Action, 0, WorkerAt(s, 0).tx.branches[0].id, true);
  }

  lemma TurnsBack(s: State)
    requires OneBranch(s) && ActionOk(s.log, 0) && NoCompensation(s.log, 0)
    ensures var t := Exec(s, ABORTS);
            && ActionOk(t.log, 0) && NoCompensation(t.log, 0) && WorkerAt(t, 1).AtLoop? && WorkerAt(t, 1).op == Compensate
            && WorkerAt(t, 1).tx.revision == t.stored.revision && NoneCompensating(WorkerAt(t, 1).tx.branches)
  {
    RunTwo(s, Begin(1, Abort), Persist(1, 0));
    AnsweredOkGrows(s.log, [Stored(Aborting)], Action, 0);
  }

  lemma Ends(s: State)
    requires ActionOk(s.log, 0) && NoCompensation(s.log, 0) && WorkerAt(s, 1).AtLoop? && WorkerAt(s, 1).op == Compensate
    requires WorkerAt(s, 1).tx.revision == s.stored.revision && NoneCompensating(WorkerAt(s, 1).tx.branches)
    ensures var t := Exec(s, ENDS); t.stored.status.Aborted? && LosesBranch(t, 0)
  {
    RunTwo(s, Advance(1), Persist(1, 0));
    AnsweredOkGrows(s.log, [Stored(Aborted)], Action, 0);
  }

  /** With no stop at all: the action is answered with success, another worker aborts before it is
      stored, and the Saga ends Aborted with that success never compensated. */
  lemma AbortOvertakesSuccess(s: State)
    requires ConcurrentSaga.Submitted(s) && |s.graph| == 1 && s.stored.revision < MAX_U64 - 4
    ensures var t := Exec(s, BEGINS + CLAIMS + SENDS + SUCCEEDS + ABORTS + ENDS);
            t.stored.status.Aborted? && LosesBranch(t, 0)
  {
    var tx := Begins(s);
    Claims(Exec(s, BEGINS), tx);
    ExecAppend(s, BEGINS, CLAIMS);
    var run := BEGINS + CLAIMS;
    Sends(Exec(s, run), tx);
    ExecAppend(s, run, SENDS);
    Succeeds(Exec(s, run + SENDS));
    ExecAppend(s, run + SENDS, SUCCEEDS);
    TurnsBack(Exec(s, run + SENDS + SUCCEEDS));
    ExecAppend(s, run + SENDS + SUCCEEDS, ABORTS);
    Ends(Exec(s, run + SENDS + SUCCEEDS + ABORTS));
    ExecAppend(s, run + SENDS + SUCCEEDS + ABORTS, ENDS);
  }
}
