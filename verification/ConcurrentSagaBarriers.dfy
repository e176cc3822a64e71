/** Every run of the concurrent Saga is a run of the barrier protocol, so its calls happen at
    most once. */
module ConcurrentSagaBarriers {
  import opened Core
  import opened Edits
  import opened DependencyGraph
  import opened Layers
  import opened ConcurrentSaga
  import B = BarrierProtocol

  // ---------------------------------------------------------------------
  // The shape of a worker

  predicate Shape(graph: seq<Branch>, wk: Worker) {
    match wk
    case Idle => true
    case Administering(tx) => SameDefinitions(tx.branches, graph)
    case Persisting(op, tx, next) =>
      && SagaOp(op) && SameDefinitions(tx.branches, graph)
      && (next.Invoke? ==> Increasing(next.layer, |graph|))
    case AtLoop(op, tx) => SagaOp(op) && SameDefinitions(tx.branches, graph)
    case Claiming(op, tx, layer, k) =>
      SagaOp(op) && SameDefinitions(tx.branches, graph) && Increasing(layer, |graph|) && k <= |layer|
    case Releasing(op, tx, toRelease) =>
      SagaOp(op) && SameDefinitions(tx.branches, graph) && Increasing(toRelease, |graph|)
    case Calling(op, tx, calls, _, _) =>
      SagaOp(op) && SameDefinitions(tx.branches, graph) && forall i :: i in calls ==> i < |graph|
  }

  predicate SagaOp(op: Operation) { op == Action || op == Compensate }

  ghost predicate Shaped(s: State) {
    && UniqueIds(s.graph)
    && SameDefinitions(s.stored.branches, s.graph)
    && forall w :: w in s.workers ==> Shape(s.graph, s.workers[w])
  }

  lemma ReadyIncreasing(bs: seq<Branch>)
    ensures Increasing(ReadyActions(bs), |bs|) && Increasing(ReadyCompensations(bs), |bs|)
  {
    forall a | 0 <= a < |ReadyActions(bs)| ensures ReadyActions(bs)[a] < |bs| {
      assert ReadyActions(bs)[a] in ReadyActions(bs);
    }
    forall a | 0 <= a < |ReadyCompensations(bs)| ensures ReadyCompensations(bs)[a] < |bs| {
      assert ReadyCompensations(bs)[a] in ReadyCompensations(bs);
    }
  }

  lemma ClaimShape(s: State, w: nat)
    requires Shaped(s)
    ensures Shaped(ClaimStep(s, w))
  {
  }

  lemma JoinShape(s: State, w: nat, i: nat, retryAt: nat)
    requires Shaped(s)
    ensures Shaped(JoinStep(s, w, i, retryAt))
  {
  }

  lemma CallShape(s: State, e: Event)
    requires Shaped(s) && (e.Issue? || e.Answer? || e.EndLayer?)
    ensures Shaped(Step(s, e))
  {
    var wk := WorkerAt(s, e.worker);
    assert Shape(s.graph, wk);
  }

  lemma BeginShape(s: State, request: Request)
    requires Shaped(s)
    ensures Shape(s.graph, BeginRequest(s.stored, request))
  {
  }

  lemma PersistShape(s: State, w: nat, now: nat)
    requires Shaped(s)
    ensures Shaped(PersistStep(s, w, now))
  {
  }

  lemma StepShape(s: State, e: Event)
    requires Shaped(s)
    ensures Shaped(Step(s, e))
  {
    var wk := WorkerAt(s, e.worker);
    assert Shape(s.graph, wk);
    match e
    case Begin(_, request) => BeginShape(s, request);
    case Persist(w, now) => PersistShape(s, w, now);
    case Advance(_) => if wk.AtLoop? { ReadyIncreasing(wk.tx.branches); }
    case Claim(w) => ClaimShape(s, w);
    case Release(_) =>
    case Issue(_, _, _) => CallShape(s, e);
    case Answer(_, _, _) => CallShape(s, e);
    case Join(w, i, retryAt) => JoinShape(s, w, i, retryAt);
    case EndLayer(_) => CallShape(s, e);
    case Crash(_) =>
  }

  // ---------------------------------------------------------------------
  // The barriers a worker holds

  /** Worker wk holds the barrier of branch i in the given phase. */
  predicate HoldsAt(wk: Worker, i: nat, phase: B.Phase) {
    match wk
    case Persisting(_, _, next) => next.Invoke? && i in next.layer && phase == B.Claimed
    case Claiming(_, _, layer, k) => k <= |layer| && i in layer[..k] && phase == B.Claimed
    case Releasing(_, _, toRelease) => i in toRelease && phase == B.Claimed
    case Calling(_, _, calls, _, _) =>
      i in calls && (match calls[i]
                     case Spawned => phase == B.Claimed
                     case Open => phase == B.Open
                     case Replied(ok) => !ok && phase == B.Refused)
    case _ => false
  }

  function HolderOp(wk: Worker): Operation {
    if wk.Idle? || wk.Administering? then Action else wk.op
  }

  ghost predicate Holds(graph: seq<Branch>, wk: Worker, key: Key, phase: B.Phase) {
    exists i: nat :: i < |graph| && HoldsAt(wk, i, phase) && key == Key(graph[i].id, HolderOp(wk))
  }

  /** The barrier-protocol state shows the same barriers, log and holders. */
  ghost predicate Shows(b: B.State, s: State) {
    && b.held == s.held && b.log == s.log
    && forall w, key, phase :: B.InPhase(b, w, key, phase) <==> Holds(s.graph, WorkerAt(s, w), key, phase)
  }

  /** Holding for one worker: its slots in b are exactly what it holds. */
  ghost predicate ShowsWorker(b: B.State, graph: seq<Branch>, w: nat, wk: Worker) {
    forall key, phase :: B.InPhase(b, w, key, phase) <==> Holds(graph, wk, key, phase)
  }

  /** Steps of w alone: it is enough to look at w's own slots. */
  lemma ShowsStep(b: B.State, s: State, b': B.State, s': State, w: nat)
    requires Shows(b, s) && b'.held == s'.held && b'.log == s'.log && s'.graph == s.graph
    requires forall v :: v != w ==> WorkerAt(s', v) == WorkerAt(s, v)
    requires forall v, key, phase :: v != w ==> (B.InPhase(b', v, key, phase) <==> B.InPhase(b, v, key, phase))
    requires ShowsWorker(b', s.graph, w, WorkerAt(s', w))
    ensures Shows(b', s')
  {
  }

  predicate HoldsNothing(wk: Worker) {
    && (wk.Persisting? ==> !wk.next.Invoke?)
    && (wk.Claiming? ==> wk.claimed == 0)
    && (wk.Releasing? ==> wk.toRelease == [])
    && (wk.Calling? ==> wk.calls == map[])
  }

  /** Moves between points that hold nothing. */
  lemma Idling(b: B.State, s: State, s': State, w: nat)
    requires Shows(b, s) && s' == s.(workers := s.workers[w := WorkerAt(s', w)])
    requires HoldsNothing(WorkerAt(s, w)) && HoldsNothing(WorkerAt(s', w))
    ensures Shows(b, s')
  {
  }

  lemma Keeping(b: B.State, s: State, b': B.State, s': State, w: nat)
    requires Shows(b, s) && b'.slots == b.slots && b'.held == s'.held && b'.log == s'.log && s'.graph == s.graph
    requires forall v :: v != w ==> WorkerAt(s', v) == WorkerAt(s, v)
    requires HolderOp(WorkerAt(s', w)) == HolderOp(WorkerAt(s, w))
    requires forall i: nat, phase :: i < |s.graph| ==>
               (HoldsAt(WorkerAt(s, w), i, phase) <==> HoldsAt(WorkerAt(s', w), i, phase))
    ensures Shows(b', s')
  {
    assert ShowsWorker(b', s.graph, w, WorkerAt(s, w)) by {
      forall key, phase ensures B.InPhase(b', w, key, phase) <==> Holds(s.graph, WorkerAt(s, w), key, phase) {
        assert B.InPhase(b', w, key, phase) <==> B.InPhase(b, w, key, phase);
      }
    }
    ShowsStep(b, s, b', s', w);
  }

  /** One barrier of w moves: the slot of branch i becomes `after` (None: no slot). */
  lemma OneMoves(b: B.State, s: State, b': B.State, s': State, w: nat, i: nat,
                 after: Option<B.Phase>)
    requires Shaped(s) && Shows(b, s) && b'.held == s'.held && b'.log == s'.log && s'.graph == s.graph
    requires forall v :: v != w ==> WorkerAt(s', v) == WorkerAt(s, v)
    requires i < |s.graph|
    requires HolderOp(WorkerAt(s', w)) == HolderOp(WorkerAt(s, w))
    requires forall j: nat, phase :: j < |s.graph| && j != i ==>
               (HoldsAt(WorkerAt(s, w), j, phase) <==> HoldsAt(WorkerAt(s', w), j, phase))
    requires forall phase :: HoldsAt(WorkerAt(s', w), i, phase) <==> after == Some(phase)
    requires var slot := B.Slot(w, Key(s.graph[i].id, HolderOp(WorkerAt(s, w))));
             b'.slots == if after.None? then b.slots - {slot} else b.slots[slot := after.value]
    ensures Shows(b', s')
  {
    var wk, wk' := WorkerAt(s, w), WorkerAt(s', w);
    var key0 := Key(s.graph[i].id, HolderOp(wk));
    forall key, phase ensures B.InPhase(b', w, key, phase) <==> Holds(s.graph, wk', key, phase) {
      if key == key0 {
      } else {
        assert B.InPhase(b', w, key, phase) <==> B.InPhase(b, w, key, phase);
        assert B.InPhase(b, w, key, phase) <==> Holds(s.graph, wk, key, phase);
      }
    }
    assert ShowsWorker(b', s.graph, w, wk');
    ShowsStep(b, s, b', s', w);
  }

  // ---------------------------------------------------------------------
  // Step by step

  lemma SimulatePersist(b: B.State, s: State, w: nat, now: nat) returns (be: B.Event)
    requires Shaped(s) && Shows(b, s)
    ensures Shows(B.Step(b, be), PersistStep(s, w, now))
  {
    var wk, s' := WorkerAt(s, w), PersistStep(s, w, now);
    be := B.Pause;
    if wk.Persisting? || wk.Administering? {
      if wk.tx.revision != s.stored.revision {
        be := B.Crash(w);
        ShowsStep(b, s, B.Step(b, be), s', w);
      } else {
        be := B.Note(wk.tx.status);
        if wk.Persisting? && wk.next.Invoke? {
          Keeping(b, s, B.Step(b, be), s', w);
        } else {
          var mid := s'.(workers := s.workers);
          Keeping(b, s, B.Step(b, be), mid, w);
          Idling(B.Step(b, be), mid, s', w);
        }
      }
    }
  }

  lemma SimulateTaken(b: B.State, s: State, w: nat, key: Key)
    requires Shaped(s) && Shows(b, s) && WorkerAt(s, w).Claiming?
    requires WorkerAt(s, w).claimed < |WorkerAt(s, w).layer|
    requires WorkerAt(s, w).layer[WorkerAt(s, w).claimed] < |WorkerAt(s, w).tx.branches|
    requires key == KeyOf(WorkerAt(s, w).tx, WorkerAt(s, w).layer[WorkerAt(s, w).claimed], WorkerAt(s, w).op)
    requires Decide(s.held, key) == Execute
    ensures Shows(B.Step(b, B.Claim(w, key, false)), ClaimStep(s, w))
  {
    assert Shape(s.graph, WorkerAt(s, w));
    var Claiming(op, tx, layer, k) := WorkerAt(s, w);
    var i := layer[k];
    assert i !in layer[..k];
    assert layer[..k + 1] == layer[..k] + [i];
    NotYetHeld(b, s, w, i);
    OneMoves(b, s, B.Step(b, B.Claim(w, key, false)), ClaimStep(s, w), w, i, Some(B.Claimed));
  }

  lemma SimulateClaim(b: B.State, s: State, w: nat) returns (be: B.Event)
    requires Shaped(s) && Shows(b, s)
    ensures Shows(B.Step(b, be), ClaimStep(s, w))
  {
    var wk, s' := WorkerAt(s, w), ClaimStep(s, w);
    be := B.Pause;
    if wk.Claiming? {
      assert Shape(s.graph, wk);
      var Claiming(op, tx, layer, k) := wk;
      if k < |layer| && Decide(s.held, KeyOf(tx, layer[k], op)) == Execute {
        be := B.Claim(w, KeyOf(tx, layer[k], op), false);
        SimulateTaken(b, s, w, KeyOf(tx, layer[k], op));
      } else {
        assert layer[..|layer|] == layer;
        Keeping(b, s, b, s', w);
      }
    }
  }

  lemma NotYetHeld(b: B.State, s: State, w: nat, i: nat)
    requires Shaped(s) && Shows(b, s) && i < |s.graph|
    requires forall phase :: !HoldsAt(WorkerAt(s, w), i, phase)
    ensures B.Slot(w, Key(s.graph[i].id, HolderOp(WorkerAt(s, w)))) !in b.slots
  {
    var wk := WorkerAt(s, w);
    var key := Key(s.graph[i].id, HolderOp(wk));
    if B.Slot(w, key) in b.slots {
      var phase := b.slots[B.Slot(w, key)];
      assert B.InPhase(b, w, key, phase);
    }
  }

  lemma SimulateRelease(b: B.State, s: State, w: nat) returns (be: B.Event)
    requires Shaped(s) && Shows(b, s)
    ensures Shows(B.Step(b, be), ReleaseStep(s, w))
  {
    var wk, s' := WorkerAt(s, w), ReleaseStep(s, w);
    be := B.Pause;
    if wk.Releasing? {
      assert Shape(s.graph, wk);
      if wk.toRelease == [] {
        Idling(b, s, s', w);
      } else {
        var i := wk.toRelease[0];
        be := B.Release(w, KeyOf(wk.tx, i, wk.op));
        OneMoves(b, s, B.Step(b, be), s', w, i, None);
      }
    }
  }

  lemma SimulateIssue(b: B.State, s: State, w: nat, i: nat, at: nat) returns (be: B.Event)
    requires Shaped(s) && Shows(b, s)
    ensures Shows(B.Step(b, be), IssueStep(s, w, i, at))
  {
    var wk := WorkerAt(s, w);
    be := B.Pause;
    if CallAt(wk, i, Spawned) && HasUrl(wk.op, wk.tx.branches[i]) {
      assert Shape(s.graph, wk);
      be := B.Issue(w, KeyOf(wk.tx, i, wk.op), i, at);
      OneMoves(b, s, B.Step(b, be), IssueStep(s, w, i, at), w, i, Some(B.Open));
    }
  }

  lemma SimulateAnswer(b: B.State, s: State, w: nat, i: nat, ok: bool) returns (be: B.Event)
    requires Shaped(s) && Shows(b, s)
    ensures Shows(B.Step(b, be), AnswerStep(s, w, i, ok))
  {
    var wk := WorkerAt(s, w);
    be := B.Pause;
    if CallAt(wk, i, Open) {
      assert Shape(s.graph, wk);
      be := B.Answer(w, KeyOf(wk.tx, i, wk.op), i, ok);
      OneMoves(b, s, B.Step(b, be), AnswerStep(s, w, i, ok), w, i,
               if ok then None else Some(B.Refused));
    }
  }

  lemma SimulateJoin(b: B.State, s: State, w: nat, i: nat, retryAt: nat) returns (be: B.Event)
    requires Shaped(s) && Shows(b, s)
    ensures Shows(B.Step(b, be), JoinStep(s, w, i, retryAt))
  {
    var wk, s' := WorkerAt(s, w), JoinStep(s, w, i, retryAt);
    be := B.Pause;
    if CallAt(wk, i, Replied(false)) && Joinable(wk) {
      be := SimulateFailure(b, s, w, i, retryAt);
    } else if CallAt(wk, i, Replied(true)) && Joinable(wk) {
      Keeping(b, s, b, s', w);
    }
  }

  lemma SimulateFailure(b: B.State, s: State, w: nat, i: nat, retryAt: nat) returns (be: B.Event)
    requires Shaped(s) && Shows(b, s) && CallAt(WorkerAt(s, w), i, Replied(false)) && Joinable(WorkerAt(s, w))
    ensures Shows(B.Step(b, be), JoinStep(s, w, i, retryAt))
  {
    var wk := WorkerAt(s, w);
    assert Shape(s.graph, wk);
    be := B.Release(w, KeyOf(wk.tx, i, wk.op));
    OneMoves(b, s, B.Step(b, be), JoinStep(s, w, i, retryAt), w, i, None);
  }

  lemma Simulate(b: B.State, s: State, e: Event) returns (be: B.Event)
    requires Shaped(s) && Shows(b, s)
    ensures Shows(B.Step(b, be), Step(s, e))
  {
    be := B.Pause;
    match e
    case Begin(w, request) => if WorkerAt(s, w).Idle? { Idling(b, s, Step(s, e), w); }
    case Persist(w, now) => be := SimulatePersist(b, s, w, now);
    case Advance(w) => if WorkerAt(s, w).AtLoop? { Idling(b, s, Step(s, e), w); }
    case Claim(w) => be := SimulateClaim(b, s, w);
    case Release(w) => be := SimulateRelease(b, s, w);
    case Issue(w, i, at) => be := SimulateIssue(b, s, w, i, at);
    case Answer(w, i, ok) => be := SimulateAnswer(b, s, w, i, ok);
    case Join(w, i, retryAt) => be := SimulateJoin(b, s, w, i, retryAt);
    case EndLayer(w) => if WorkerAt(s, w).Calling? && WorkerAt(s, w).calls == map[] { Idling(b, s, Step(s, e), w); }
    case Crash(w) =>
      be := B.Crash(w);
      ShowsStep(b, s, B.Step(b, be), Step(s, e), w);
  }

  lemma {:induction false} SimulateRun(b: B.State, s: State, es: seq<Event>) returns (bes: seq<B.Event>)
    requires Shaped(s) && Shows(b, s)
    ensures Shaped(Exec(s, es)) && Shows(B.Exec(b, bes), Exec(s, es))
    decreases |es|
  {
    if es == [] {
      bes := [];
    } else {
      var be := Simulate(b, s, es[0]);
      StepShape(s, es[0]);
      var rest := SimulateRun(B.Step(b, be), Step(s, es[0]), es[1..]);
      bes := [be] + rest;
      assert bes[1..] == rest;
    }
  }

  /** At-most-once for the concurrent Saga: in every run, a barrier has one holder, at most one call
      for it is not answered with a failure, and at most one is answered with success. */
  lemma AtMostOnce(s: State, es: seq<Event>, key: Key)
    requires ConcurrentSaga.Submitted(s)
    ensures B.Successes(Exec(s, es).log, key) <= B.Live(Exec(s, es).log, key) <= 1
    ensures forall v, w, p, q ::
              Holds(s.graph, WorkerAt(Exec(s, es), v), key, p) && Holds(s.graph, WorkerAt(Exec(s, es), w), key, q)
              ==> v == w
  {
    var bes := SimulateRun(B.EMPTY, s, es);
    B.AtMostOnce(bes, key);
    var b := B.Exec(B.EMPTY, bes);
    GraphIsFixed(s, es);
    forall v, w, p, q | Holds(s.graph, WorkerAt(Exec(s, es), v), key, p)
                        && Holds(s.graph, WorkerAt(Exec(s, es), w), key, q) ensures v == w {
      assert B.InPhase(b, v, key, p) && B.InPhase(b, w, key, q);
    }
  }

  lemma {:induction false} GraphIsFixed(s: State, es: seq<Event>)
    ensures Exec(s, es).graph == s.graph
    decreases |es|
  {
    if es != [] { GraphIsFixed(Step(s, es[0]), es[1..]); }
  }
}
