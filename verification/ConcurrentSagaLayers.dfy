/** The passes of a concurrent Saga, step by step, are the layered loops: whatever the calls answer, a
    worker that nobody disturbs goes through the rounds of the loop, and every pass ends. */
module ConcurrentSagaLayers {
  import opened Core
  import opened Edits
  import opened Attempts
  import opened DependencyGraph
  import opened Layers
  import opened ConcurrentSaga
  import opened ConcurrentSagaPasses

  lemma {:induction false} ExecAppend(s: State, a: seq<Event>, b: seq<Event>)
    ensures Exec(s, a + b) == Exec(Exec(s, a), b)
    decreases |a|
  {
    if a == [] {
      assert a + b == b;
    } else {
      assert (a + b)[1..] == a[1..] + b;
      ExecAppend(Step(s, a[0]), a[1..], b);
    }
  }

  lemma RunOne(s: State, e: Event)
    ensures Exec(s, [e]) == Step(s, e)
  {
    var t := Step(s, e);
    assert [e][1..] == [] && Exec(t, []) == t;
  }

  lemma RunTwo(s: State, a: Event, b: Event)
    ensures Exec(s, [a, b]) == Step(Step(s, a), b)
  {
    assert [a, b] == [a] + [b];
    ExecAppend(s, [a], [b]);
    RunOne(s, a);
    RunOne(Step(s, a), b);
  }

  lemma RunThree(s: State, a: Event, b: Event, c: Event)
    ensures Exec(s, [a, b, c]) == Step(Step(Step(s, a), b), c)
  {
    assert [a, b, c] == [a] + [b, c];
    ExecAppend(s, [a], [b, c]);
    RunOne(s, a);
    RunTwo(Step(s, a), b, c);
  }

  // ---------------------------------------------------------------------
  // Claiming a layer

  predicate SameStatus(a: seq<Branch>, b: seq<Branch>) {
    && SameDefinitions(a, b)
    && forall i :: 0 <= i < |a| ==> a[i].status == b[i].status
  }

  /** Worker w moved on; nothing was stored or logged. */
  predicate Silent(s: State, t: State) { t.stored == s.stored && t.log == s.log }

  lemma ClaimOne(s: State, w: nat, op: Operation)
    requires Fits(s, w, op) && WorkerAt(s, w).Claiming? && WorkerAt(s, w).claimed < |WorkerAt(s, w).layer|
    ensures var t, wk := Step(s, Claim(w)), WorkerAt(s, w);
            && Silent(s, t)
            && WorkerAt(t, w).Claiming? && WorkerAt(t, w) == Claiming(op, WorkerAt(t, w).tx, wk.layer, wk.claimed + 1)
            && SameStatus(WorkerAt(t, w).tx.branches, wk.tx.branches)
            && WorkerAt(t, w).tx.options == wk.tx.options && (op == Action ==> WorkerAt(t, w).tx == wk.tx)
  {
    var Claiming(o, tx, layer, k) := WorkerAt(s, w);
    assert layer[k] in layer && layer[k] !in layer[..k];
  }

  lemma {:induction false} ClaimsAll(s: State, w: nat, op: Operation) returns (es: seq<Event>)
    requires Fits(s, w, op) && WorkerAt(s, w).Claiming?
    ensures Quiet(es, w)
    ensures var t, wk := Exec(s, es), WorkerAt(s, w);
            && Fits(t, w, op) && Silent(s, t) && WorkerAt(t, w).Claiming?
            && WorkerAt(t, w) == Claiming(op, WorkerAt(t, w).tx, wk.layer, |wk.layer|)
            && SameStatus(WorkerAt(t, w).tx.branches, wk.tx.branches)
            && WorkerAt(t, w).tx.options == wk.tx.options && (op == Action ==> WorkerAt(t, w).tx == wk.tx)
    decreases |WorkerAt(s, w).layer| - WorkerAt(s, w).claimed
  {
    var Claiming(o, tx, layer, k) := WorkerAt(s, w);
    if k == |layer| {
      es := [];
    } else {
      ClaimFits(s, w, op);
      ClaimOne(s, w, op);
      var s1 := Step(s, Claim(w));
      var rest := ClaimsAll(s1, w, op);
      es := [Claim(w)] + rest;
      assert es[1..] == rest;
    }
  }

  // ---------------------------------------------------------------------
  // The calls of a layer

  function After(op: Operation, ok: bool): BranchStatus {
    if op == Action then (if ok then BranchStatus.Succeeded else BranchStatus.Failed)
    else (if ok then BranchStatus.Skipped else BranchStatus.Compensating)
  }

  /** A failure that ends the Saga: the branch has no attempt left. */
  predicate Last(op: Operation, o: Options, b: Branch) { op == Action && b.attempts >= Allowed(o, 1) }

  /** A worker whose calls are not yet made. */
  predicate AllSpawned(wk: Worker) {
    wk.Calling? && forall i :: i in wk.calls ==>
      i < |wk.tx.branches| && wk.calls[i] == Spawned && HasUrl(wk.op, wk.tx.branches[i])
  }

  predicate CallsAnswered(wk: Worker, wk': Worker, answer: nat -> bool) {
    && wk.Calling? && wk'.Calling? && wk'.op == wk.op && wk'.calls == map[]
    && SameDefinitions(wk'.tx.branches, wk.tx.branches) && wk'.tx == wk.tx.(branches := wk'.tx.branches)
    && (forall i: nat :: i < |wk.tx.branches| ==>
          && wk'.tx.branches[i].attempts == wk.tx.branches[i].attempts
          && wk'.tx.branches[i].status == if i in wk.calls then After(wk.op, answer(i)) else wk.tx.branches[i].status)
    && (wk'.exhausted <==> wk.exhausted || exists i ::
          i in wk.calls && i < |wk.tx.branches| && !answer(i) && Last(wk.op, wk.tx.options, wk.tx.branches[i]))
    && (wk'.retryable <==> wk.retryable || exists i ::
          i in wk.calls && i < |wk.tx.branches| && !answer(i) && !Last(wk.op, wk.tx.options, wk.tx.branches[i]))
  }

  /** The barriers of failed calls are free again. */
  predicate Released(op: Operation, tx: Transaction, calls: set<nat>, answer: nat -> bool, held: set<Key>, held': set<Key>) {
    && held' <= held
    && (forall i :: i in calls && i < |tx.branches| && !answer(i) ==> KeyOf(tx, i, op) !in held')
  }

  lemma GetsAnswer(s: State, w: nat, i: nat, ok: bool)
    requires AllSpawned(WorkerAt(s, w)) && i in WorkerAt(s, w).calls
    ensures var wk, t := WorkerAt(s, w), Step(Step(s, Issue(w, i, 0)), Answer(w, i, ok));
            && t.stored == s.stored && t.held == s.held
            && WorkerAt(t, w) == wk.(calls := wk.calls[i := Replied(ok)])
  {
    var wk := WorkerAt(s, w);
    var s1 := IssueStep(s, w, i, 0);
    assert WorkerAt(s1, w) == wk.(calls := wk.calls[i := Open]);
  }

  /** From s to t the call of branch i was made and joined. */
  predicate Called(s: State, t: State, w: nat, i: nat, ok: bool) {
    var wk := WorkerAt(s, w);
    && wk.Calling? && i in wk.calls && i < |wk.tx.branches|
    && WorkerAt(t, w) == (if ok then JoinOk(wk, i) else JoinFailed(wk, i, 0))
    && t.stored == s.stored
    && t.held == (if ok then s.held else s.held - {KeyOf(wk.tx, i, wk.op)})
  }

  lemma CallOne(s: State, w: nat, i: nat, ok: bool) returns (es: seq<Event>)
    requires AllSpawned(WorkerAt(s, w)) && i in WorkerAt(s, w).calls
    ensures Quiet(es, w) && Called(s, Exec(s, es), w, i, ok)
  {
    var wk, a, b, c := WorkerAt(s, w), Issue(w, i, 0), Answer(w, i, ok), Join(w, i, 0);
    var t := Step(Step(s, a), b);
    GetsAnswer(s, w, i, ok);
    JoinsAnswer(t, w, wk, i, ok);
    es := [a, b, c];
    RunThree(s, a, b, c);
    assert Exec(s, es) == Step(t, c);
  }

  lemma JoinsAnswer(s: State, w: nat, wk: Worker, i: nat, ok: bool)
    requires AllSpawned(wk) && i in wk.calls && WorkerAt(s, w) == wk.(calls := wk.calls[i := Replied(ok)])
    ensures var t := Step(s, Join(w, i, 0));
            && WorkerAt(t, w) == (if ok then JoinOk(wk, i) else JoinFailed(wk, i, 0))
            && t.stored == s.stored
            && t.held == (if ok then s.held else s.held - {KeyOf(wk.tx, i, wk.op)})
  {
    assert wk.calls[i := Replied(ok)] - {i} == wk.calls - {i};
    assert Joinable(WorkerAt(s, w));
  }

  lemma JoinedIs(wk: Worker, i: nat, ok: bool)
    requires AllSpawned(wk) && i in wk.calls && (wk.op == Action || wk.op == Compensate)
    requires Word32(wk.tx)
    ensures var wk' := if ok then JoinOk(wk, i) else JoinFailed(wk, i, 0);
            && AllSpawned(wk') && wk'.calls == wk.calls - {i} && wk'.op == wk.op
            && SameDefinitions(wk'.tx.branches, wk.tx.branches) && wk'.tx == wk.tx.(branches := wk'.tx.branches)
            && (forall j: nat :: j < |wk.tx.branches| ==>
                  && wk'.tx.branches[j].attempts == wk.tx.branches[j].attempts
                  && (j != i ==> wk'.tx.branches[j].status == wk.tx.branches[j].status)
                  && wk'.tx.branches[j].id == wk.tx.branches[j].id)
            && wk'.tx.branches[i].status == After(wk.op, ok)
            && (wk'.exhausted <==> wk.exhausted || (!ok && Last(wk.op, wk.tx.options, wk.tx.branches[i])))
            && (wk'.retryable <==> wk.retryable || (!ok && !Last(wk.op, wk.tx.options, wk.tx.branches[i])))
  {
  }

  /** From s to t all calls of the layer were made and joined. */
  predicate AllCalled(s: State, t: State, w: nat, answer: nat -> bool) {
    var wk := WorkerAt(s, w);
    && CallsAnswered(wk, WorkerAt(t, w), answer) && t.stored == s.stored
    && Released(wk.op, wk.tx, wk.calls.Keys, answer, s.held, t.held)
  }

  predicate Word32(tx: Transaction) {
    tx.options.retryLimit.Some? ==> tx.options.retryLimit.value <= MAX_U32
  }

  predicate CanCall(wk: Worker) {
    AllSpawned(wk) && (wk.op == Action || wk.op == Compensate) && Word32(wk.tx)
  }

  lemma CalledMore(s: State, s1: State, t: State, w: nat, i: nat, answer: nat -> bool)
    requires CanCall(WorkerAt(s, w)) && Called(s, s1, w, i, answer(i)) && AllCalled(s1, t, w, answer)
    ensures AllCalled(s, t, w, answer)
  {
    Combine(WorkerAt(s, w), WorkerAt(s1, w), WorkerAt(t, w), i, answer);
    CombineHeld(WorkerAt(s, w), WorkerAt(s1, w), i, answer, s.held, s1.held, t.held);
  }

  lemma NoneToCall(s: State, w: nat, answer: nat -> bool)
    requires CanCall(WorkerAt(s, w)) && WorkerAt(s, w).calls == map[]
    ensures AllCalled(s, s, w, answer)
  {
  }

  lemma CallsLeft(s: State, s1: State, w: nat, i: nat, ok: bool)
    requires CanCall(WorkerAt(s, w)) && Called(s, s1, w, i, ok)
    ensures CanCall(WorkerAt(s1, w)) && |WorkerAt(s1, w).calls| < |WorkerAt(s, w).calls|
  {
    JoinedIs(WorkerAt(s, w), i, ok);
    Fewer(WorkerAt(s, w).calls, i);
  }

  lemma {:induction false} CallsAll(s: State, w: nat, answer: nat -> bool) returns (es: seq<Event>)
    requires CanCall(WorkerAt(s, w))
    ensures Quiet(es, w) && AllCalled(s, Exec(s, es), w, answer)
    decreases |WorkerAt(s, w).calls|
  {
    var wk := WorkerAt(s, w);
    if wk.calls == map[] {
      es := [];
      NoneToCall(s, w, answer);
    } else {
      var i :| i in wk.calls;
      var call := CallOne(s, w, i, answer(i));
      var s1 := Exec(s, call);
      CallsLeft(s, s1, w, i, answer(i));
      var rest := CallsAll(s1, w, answer);
      es := call + rest;
      ExecAppend(s, call, rest);
      CalledMore(s, s1, Exec(s1, rest), w, i, answer);
    }
  }

  lemma Fewer(calls: map<nat, Call>, i: nat)
    requires i in calls
    ensures |calls - {i}| < |calls|
  {
    assert calls.Keys == (calls - {i}).Keys + {i};
    assert |calls.Keys| == |calls| && |(calls - {i}).Keys| == |calls - {i}|;
  }

  lemma Combine(wk: Worker, wk1: Worker, wk2: Worker, i: nat, answer: nat -> bool)
    requires AllSpawned(wk) && i in wk.calls && (wk.op == Action || wk.op == Compensate)
    requires Word32(wk.tx)
    requires wk1 == if answer(i) then JoinOk(wk, i) else JoinFailed(wk, i, 0)
    requires CallsAnswered(wk1, wk2, answer)
    ensures CallsAnswered(wk, wk2, answer)
  {
    JoinedIs(wk, i, answer(i));
    forall j: nat | j < |wk.tx.branches|
      ensures wk2.tx.branches[j].attempts == wk.tx.branches[j].attempts
      ensures wk2.tx.branches[j].status == if j in wk.calls then After(wk.op, answer(j)) else wk.tx.branches[j].status
    {
      assert j != i && j in wk.calls ==> j in wk1.calls;
    }
    forall j | j in wk.calls && j < |wk.tx.branches| && !answer(j) && j != i
      ensures j in wk1.calls
      ensures Last(wk1.op, wk1.tx.options, wk1.tx.branches[j]) <==> Last(wk.op, wk.tx.options, wk.tx.branches[j])
    {
    }
  }

  lemma CombineHeld(wk: Worker, wk1: Worker, i: nat, answer: nat -> bool, held: set<Key>, held1: set<Key>, held2: set<Key>)
    requires AllSpawned(wk) && i in wk.calls && (wk.op == Action || wk.op == Compensate)
    requires Word32(wk.tx)
    requires wk1 == if answer(i) then JoinOk(wk, i) else JoinFailed(wk, i, 0)
    requires held1 == if answer(i) then held else held - {KeyOf(wk.tx, i, wk.op)}
    requires Released(wk1.op, wk1.tx, wk1.calls.Keys, answer, held1, held2)
    ensures Released(wk.op, wk.tx, wk.calls.Keys, answer, held, held2)
  {
    JoinedIs(wk, i, answer(i));
    forall j | j in wk.calls.Keys && j < |wk.tx.branches| && !answer(j) ensures KeyOf(wk.tx, j, wk.op) !in held2 {
      if j != i { assert KeyOf(wk1.tx, j, wk.op) == KeyOf(wk.tx, j, wk.op); }
    }
  }

  // ---------------------------------------------------------------------
  // One round

  /** A worker about to look for the next layer, whose due branches can all be called. */
  ghost predicate Looping(s: State, w: nat, op: Operation, tx: Transaction) {
    && WorkerAt(s, w) == AtLoop(op, tx) && Current(s, op, tx) && Clear(op, tx, s.held, {}) && Word32(tx)
    && (op == Compensate ==> Unwinding(tx.branches)) && DueHaveUrls(op, tx.branches)
  }

  predicate DueHaveUrls(op: Operation, bs: seq<Branch>) {
    forall i: nat :: i < |bs| && Due(op, bs[i]) ==> HasUrl(op, bs[i])
  }

  /** The layer is claimed and written down, and its calls are next. */
  ghost predicate LayerStarted(tx: Transaction, t: State, w: nat, op: Operation) {
    var wk := WorkerAt(t, w);
    && Fits(t, w, op) && CanCall(wk) && wk.op == op && !wk.retryable && !wk.exhausted
    && wk.calls.Keys == (set i | i in Ready(op, tx.branches))
    && SameDefinitions(wk.tx.branches, tx.branches) && wk.tx.options == tx.options
    && (forall i: nat :: i < |tx.branches| && i !in wk.calls ==> wk.tx.branches[i].status == tx.branches[i].status)
    && (op == Action ==> forall i: nat :: i in wk.calls && i < |tx.branches| ==>
          wk.tx.branches[i].attempts == Next32(tx.branches[i].attempts))
  }

  lemma Takes(s: State, w: nat, op: Operation, tx: Transaction) returns (es: seq<Event>)
    requires Looping(s, w, op, tx) && Ready(op, tx.branches) != []
    ensures var t := Exec(s, es);
            && Quiet(es, w) && Fits(t, w, op) && WorkerAt(t, w).Claiming?
            && WorkerAt(t, w).layer == Ready(op, tx.branches) && WorkerAt(t, w).claimed == |Ready(op, tx.branches)|
            && SameStatus(WorkerAt(t, w).tx.branches, tx.branches)
            && WorkerAt(t, w).tx.options == tx.options && (op == Action ==> WorkerAt(t, w).tx == tx)
  {
    var s1 := Step(s, Advance(w));
    DoneWhenNoneReady(op, tx, s.held);
    AdvanceFits(s, w, op);
    assert WorkerAt(s1, w) == Claiming(op, tx, Ready(op, tx.branches), 0);
    var rest := ClaimsAll(s1, w, op);
    es := [Advance(w)] + rest;
    RunOne(s, Advance(w));
    ExecAppend(s, [Advance(w)], rest);
  }

  lemma Writes(s: State, w: nat, op: Operation) returns (es: seq<Event>)
    requires Fits(s, w, op) && WorkerAt(s, w).Claiming? && WorkerAt(s, w).claimed == |WorkerAt(s, w).layer|
    ensures Quiet(es, w)
    ensures var t, was, wk := Exec(s, es), WorkerAt(s, w), WorkerAt(Exec(s, es), w);
            && Fits(t, w, op) && wk.Calling? && wk.op == op && wk.calls == (map i | i in was.layer :: Spawned)
            && !wk.retryable && !wk.exhausted
            && wk.tx.branches == (if op == Action then MarkRunning(was.tx, was.layer) else was.tx).branches
            && wk.tx.options == was.tx.options
  {
    var s1 := Step(s, Claim(w));
    ClaimFits(s, w, op);
    assert WorkerAt(s1, w).Persisting?;
    var s2 := Step(s1, Persist(w, 0));
    PersistFits(s1, w, 0, op);
    es := [Claim(w), Persist(w, 0)];
    RunTwo(s, Claim(w), Persist(w, 0));
  }

  lemma Starts(s: State, w: nat, op: Operation, tx: Transaction) returns (es: seq<Event>)
    requires Looping(s, w, op, tx) && Ready(op, tx.branches) != []
    ensures Quiet(es, w) && LayerStarted(tx, Exec(s, es), w, op)
  {
    var take := Takes(s, w, op, tx);
    var s1 := Exec(s, take);
    var write := Writes(s1, w, op);
    es := take + write;
    ExecAppend(s, take, write);
    Started(tx, WorkerAt(s1, w).tx, Exec(s1, write), w, op);
  }

  lemma Started(tx: Transaction, was: Transaction, t: State, w: nat, op: Operation)
    requires Word32(tx) && SameStatus(was.branches, tx.branches) && was.options == tx.options && (op == Action ==> was == tx)
    requires DueHaveUrls(op, tx.branches)
    requires var wk := WorkerAt(t, w);
             && Fits(t, w, op) && wk.Calling? && wk.op == op && wk.calls == (map i | i in Ready(op, tx.branches) :: Spawned)
             && !wk.retryable && !wk.exhausted && wk.tx.options == was.options
             && wk.tx.branches == (if op == Action then MarkRunning(was, Ready(op, tx.branches)) else was).branches
    ensures LayerStarted(tx, t, w, op)
  {
    var wk := WorkerAt(t, w);
    assert wk.calls.Keys == set i | i in Ready(op, tx.branches);
    StartedEdits(op, tx, was, wk.tx.branches);
    forall i | i in wk.calls ensures i < |wk.tx.branches| && wk.calls[i] == Spawned && HasUrl(op, wk.tx.branches[i]) {
      assert i in Ready(op, tx.branches) && Definition(wk.tx.branches[i]) == Definition(tx.branches[i]);
    }
  }

  lemma StartedEdits(op: Operation, tx: Transaction, was: Transaction, bs: seq<Branch>)
    requires SameStatus(was.branches, tx.branches) && (op == Action ==> was == tx)
    requires bs == (if op == Action then MarkRunning(was, Ready(op, tx.branches)) else was).branches
    ensures SameDefinitions(bs, tx.branches)
    ensures forall i: nat :: i < |tx.branches| && i !in Ready(op, tx.branches) ==> bs[i].status == tx.branches[i].status
    ensures op == Action ==> forall i: nat :: i in Ready(op, tx.branches) && i < |tx.branches| ==>
              bs[i].attempts == Next32(tx.branches[i].attempts)
  {
    forall i: nat | i < |tx.branches| ensures Definition(bs[i]) == Definition(tx.branches[i]) {
      assert Definition(was.branches[i]) == Definition(tx.branches[i]);
    }
  }

  predicate Failing(op: Operation, tx: Transaction, answer: nat -> bool) {
    exists i :: i in Ready(op, tx.branches) && !answer(i)
  }

  /** Some call of the round fails, and its branch has no attempt left. */
  predicate Exhausts(o: Options, bs: seq<Branch>, answer: nat -> bool) {
    exists i :: i in Ready(Action, bs) && !answer(i) && bs[i].attempts + 1 >= Allowed(o, 1)
  }

  predicate Exhausting(tx: Transaction, answer: nat -> bool) { Exhausts(tx.options, tx.branches, answer) }

  predicate Answered(op: Operation, tx: Transaction, bs: seq<Branch>, answer: nat -> bool) {
    && SameDefinitions(bs, tx.branches)
    && forall i: nat :: i < |tx.branches| ==>
         bs[i].status == if i in Ready(op, tx.branches) then After(op, answer(i)) else tx.branches[i].status
  }

  /** A round from tx is over: exactly the ready branches were called, and the flags tell how. */
  ghost predicate RoundDone(tx: Transaction, t: State, w: nat, op: Operation, answer: nat -> bool) {
    var wk := WorkerAt(t, w);
    && wk.Calling? && wk.op == op && wk.calls == map[]
    && Current(t, op, wk.tx) && Clear(op, wk.tx, t.held, {})
    && Answered(op, tx, wk.tx.branches, answer) && wk.tx.options == tx.options
    && (wk.exhausted <==> op == Action && Exhausting(tx, answer))
    && (wk.retryable || wk.exhausted <==> Failing(op, tx, answer))
  }

  lemma RoundClear(s1: State, t: State, w: nat, op: Operation, answer: nat -> bool)
    requires Fits(s1, w, op) && CanCall(WorkerAt(s1, w)) && WorkerAt(s1, w).op == op && AllCalled(s1, t, w, answer)
    ensures var tx := WorkerAt(t, w).tx; Current(t, op, tx) && Clear(op, tx, t.held, {})
  {
    var wk1, wk := WorkerAt(s1, w), WorkerAt(t, w);
    SameGraph(wk.tx.branches, wk1.tx.branches);
    forall i: nat | i < |wk.tx.branches| && Due(op, wk.tx.branches[i])
      ensures Waiting(op, wk.tx.branches[i]) && KeyOf(wk.tx, i, op) !in t.held {
      assert KeyOf(wk.tx, i, op) == KeyOf(wk1.tx, i, op);
    }
  }

  lemma RoundFlags(tx: Transaction, s1: State, t: State, w: nat, op: Operation, answer: nat -> bool)
    requires LayerStarted(tx, s1, w, op) && AllCalled(s1, t, w, answer)
    ensures var wk := WorkerAt(t, w);
            && (wk.exhausted <==> op == Action && Exhausting(tx, answer))
            && (wk.retryable || wk.exhausted <==> Failing(op, tx, answer))
  {
    var wk1 := WorkerAt(s1, w);
    forall i ensures i in Ready(op, tx.branches) <==> i in wk1.calls { assert i in wk1.calls <==> i in wk1.calls.Keys; }
    forall i | i in wk1.calls
      ensures Last(op, tx.options, wk1.tx.branches[i]) <==>
                op == Action && tx.branches[i].attempts + 1 >= Allowed(tx.options, 1) {
    }
  }

  lemma RoundAnswers(tx: Transaction, s1: State, t: State, w: nat, op: Operation, answer: nat -> bool)
    requires LayerStarted(tx, s1, w, op) && AllCalled(s1, t, w, answer)
    ensures Answered(op, tx, WorkerAt(t, w).tx.branches, answer)
  {
    var wk1 := WorkerAt(s1, w);
    forall i ensures i in Ready(op, tx.branches) <==> i in wk1.calls { assert i in wk1.calls <==> i in wk1.calls.Keys; }
  }

  lemma RoundRuns(s: State, w: nat, op: Operation, tx: Transaction, answer: nat -> bool) returns (es: seq<Event>)
    requires Looping(s, w, op, tx) && Ready(op, tx.branches) != []
    ensures Quiet(es, w) && RoundDone(tx, Exec(s, es), w, op, answer)
  {
    var start := Starts(s, w, op, tx);
    var s1 := Exec(s, start);
    var calls := CallsAll(s1, w, answer);
    es := start + calls;
    ExecAppend(s, start, calls);
    RoundClear(s1, Exec(s1, calls), w, op, answer);
    RoundFlags(tx, s1, Exec(s1, calls), w, op, answer);
    RoundAnswers(tx, s1, Exec(s1, calls), w, op, answer);
  }

  // ---------------------------------------------------------------------
  // The loops

  function Cleared(op: Operation): BranchStatus { if op == Action then BranchStatus.Succeeded else BranchStatus.Skipped }

  predicate Progress(op: Operation, a: seq<Branch>, b: seq<Branch>) {
    if op == Action then ActionProgress(a, b) else CompensationProgress(a, b)
  }

  /** Where the loop stands after some rounds. */
  ghost predicate Under(op: Operation, start: seq<Branch>, bs: seq<Branch>, rounds: nat) {
    && Progress(op, start, bs)
    && rounds + (if op == Action then |Having(start, BranchStatus.Succeeded)| else 0) <= |Having(bs, Cleared(op))|
  }

  ghost predicate LayersEnd(op: Operation, start: seq<Branch>, bs: seq<Branch>, rounds: nat, last: seq<Branch>,
                            answer: (nat, nat) -> bool) {
    if op == Action then ActionLayersEnd(start, bs, rounds, last, answer)
    else CompensationLayersEnd(start, bs, rounds, last, answer)
  }

  predicate AllDone(op: Operation, bs: seq<Branch>) {
    if op == Action then AllSucceeded(bs) else NoneCompensating(bs)
  }

  function InRound(answer: (nat, nat) -> bool, round: nat): nat -> bool { (i: nat) => answer(round, i) }

  lemma RoundProgress(op: Operation, tx: Transaction, bs: seq<Branch>, round: nat, answer: (nat, nat) -> bool)
    requires (op == Action || op == Compensate) && UniqueIds(tx.branches) && (op == Compensate ==> Unwinding(tx.branches))
    requires Answered(op, tx, bs, InRound(answer, round))
    ensures Progress(op, tx.branches, bs)
    ensures op == Action ==> ActionsAnswered(tx.branches, bs, round, answer)
    ensures op == Compensate ==> CompensationsAnswered(tx.branches, bs, round, answer)
  {
    if op == Action {
      forall i: nat ensures ActionReady(tx.branches, i) <==> i in Ready(op, tx.branches) { }
      ActionLayerAdvances(tx.branches, bs);
    } else {
      forall i: nat ensures CompensationReady(tx.branches, i) <==> i in Ready(op, tx.branches) { }
      CompensationLayerAdvances(tx.branches, bs);
    }
  }

  lemma RoundGrows(op: Operation, tx: Transaction, bs: seq<Branch>, answer: nat -> bool)
    requires (op == Action || op == Compensate) && Ready(op, tx.branches) != []
    requires Answered(op, tx, bs, answer) && !Failing(op, tx, answer)
    ensures |Having(tx.branches, Cleared(op))| < |Having(bs, Cleared(op))|
  {
    LayerGrows(tx.branches, bs, Ready(op, tx.branches), Cleared(op));
  }

  lemma ProgressOn(op: Operation, start: seq<Branch>, a: seq<Branch>, b: seq<Branch>)
    requires (op == Action || op == Compensate) && Progress(op, start, a) && Progress(op, a, b)
    ensures Progress(op, start, b)
  {
    if op == Action { ActionProgressTransitive(start, a, b); } else { CompensationProgressTransitive(start, a, b); }
  }

  lemma RoundFailed(
    op: Operation, start: seq<Branch>, tx: Transaction, bs: seq<Branch>, round: nat, answer: (nat, nat) -> bool)
    requires (op == Action || op == Compensate) && UniqueIds(tx.branches) && (op == Compensate ==> Unwinding(tx.branches))
    requires Under(op, start, tx.branches, round)
    requires Answered(op, tx, bs, InRound(answer, round)) && Failing(op, tx, InRound(answer, round))
    ensures LayersEnd(op, start, bs, round + 1, tx.branches, answer) && !AllDone(op, bs)
  {
    RoundProgress(op, tx, bs, round, answer);
    ProgressOn(op, start, tx.branches, bs);
    var i :| i in Ready(op, tx.branches) && !answer(round, i);
    assert tx.branches[i].status != Cleared(op) && bs[i].status == After(op, false);
    HavingBound(tx.branches, Cleared(op));
    if op == Action { ActionsFailed(start, tx.branches, bs, round, answer, i); }
    else { CompensationsFailed(start, tx.branches, bs, round, answer, i); }
  }

  lemma ActionsFailed(start: seq<Branch>, last: seq<Branch>, bs: seq<Branch>, round: nat, answer: (nat, nat) -> bool, i: nat)
    requires ActionProgress(start, last) && ActionProgress(start, bs) && ActionsAnswered(last, bs, round, answer)
    requires round + |Having(start, BranchStatus.Succeeded)| < |last|
    requires ActionReady(last, i) && !answer(round, i)
    ensures ActionLayersEnd(start, bs, round + 1, last, answer)
  {
  }

  lemma CompensationsFailed(
    start: seq<Branch>, last: seq<Branch>, bs: seq<Branch>, round: nat, answer: (nat, nat) -> bool, i: nat)
    requires CompensationProgress(start, last) && CompensationProgress(start, bs)
    requires CompensationsAnswered(last, bs, round, answer)
    requires round < |last| && CompensationReady(last, i) && !answer(round, i)
    ensures CompensationLayersEnd(start, bs, round + 1, last, answer)
  {
  }

  /** The loop is left with everything done, or with a round that failed. */
  ghost predicate LoopLeft(op: Operation, t: State, w: nat, bs: seq<Branch>) {
    if AllDone(op, bs)
    then WorkerAt(t, w).Idle? && t.stored.status == Finished(op) && t.stored.branches == bs
    else
      && WorkerAt(t, w).Calling? && WorkerAt(t, w).op == op && WorkerAt(t, w).calls == map[]
      && Current(t, op, WorkerAt(t, w).tx) && WorkerAt(t, w).tx.branches == bs
      && (WorkerAt(t, w).retryable || WorkerAt(t, w).exhausted)
  }

  lemma LeavesDone(s: State, w: nat, op: Operation, tx: Transaction) returns (es: seq<Event>)
    requires Looping(s, w, op, tx) && Ready(op, tx.branches) == []
    ensures Quiet(es, w) && AllDone(op, tx.branches) && LoopLeft(op, Exec(s, es), w, tx.branches)
  {
    DoneWhenNoneReady(op, tx, s.held);
    es := [Advance(w), Persist(w, 0)];
    RunTwo(s, Advance(w), Persist(w, 0));
  }

  /** After a round without failure the worker looks for the next layer. */
  lemma GoesOn(tx: Transaction, s: State, w: nat, op: Operation, answer: nat -> bool)
    returns (es: seq<Event>, next: Transaction)
    requires RoundDone(tx, s, w, op, answer) && !Failing(op, tx, answer) && Word32(tx)
    requires op == Compensate ==> Unwinding(WorkerAt(s, w).tx.branches)
    requires DueHaveUrls(op, tx.branches)
    ensures Quiet(es, w) && Looping(Exec(s, es), w, op, next) && next.branches == WorkerAt(s, w).tx.branches
    ensures next.options == WorkerAt(s, w).tx.options
  {
    var wk := WorkerAt(s, w);
    es, next := [EndLayer(w), Persist(w, 0)], wk.tx.(revision := Next64(wk.tx.revision));
    RunTwo(s, EndLayer(w), Persist(w, 0));
    var t := Step(Step(s, EndLayer(w)), Persist(w, 0));
    assert WorkerAt(t, w) == AtLoop(op, next);
    forall i: nat | i < |next.branches| && Due(op, next.branches[i]) ensures HasUrl(op, next.branches[i]) {
      assert Definition(next.branches[i]) == Definition(tx.branches[i]);
    }
  }

  ghost function LeftOver(op: Operation, bs: seq<Branch>): int { |bs| - |Having(bs, Cleared(op))| }

  /** A round without failure: the loop goes on with more done than before. */
  lemma RoundGoesOn(
    s: State, w: nat, op: Operation, tx: Transaction, start: seq<Branch>, round: nat, answer: (nat, nat) -> bool)
    returns (es: seq<Event>, next: Transaction)
    requires Looping(s, w, op, tx) && Under(op, start, tx.branches, round) && Ready(op, tx.branches) != []
    requires !Failing(op, tx, InRound(answer, round))
    ensures Quiet(es, w) && Looping(Exec(s, es), w, op, next) && Under(op, start, next.branches, round + 1)
    ensures next.options == tx.options
    ensures 0 <= LeftOver(op, next.branches) < LeftOver(op, tx.branches)
  {
    var now := InRound(answer, round);
    var go := RoundRuns(s, w, op, tx, now);
    var s1 := Exec(s, go);
    var bs := WorkerAt(s1, w).tx.branches;
    RoundProgress(op, tx, bs, round, answer);
    RoundGrows(op, tx, bs, now);
    ProgressOn(op, start, tx.branches, bs);
    HavingBound(bs, Cleared(op));
    var on;
    on, next := GoesOn(tx, s1, w, op, now);
    es := Joins(s, w, go, on);
  }

  /** A round with a failure: the loop is left. */
  lemma RoundLeaves(
    s: State, w: nat, op: Operation, tx: Transaction, start: seq<Branch>, round: nat, answer: (nat, nat) -> bool)
    returns (es: seq<Event>, bs: seq<Branch>)
    requires Looping(s, w, op, tx) && Under(op, start, tx.branches, round) && Ready(op, tx.branches) != []
    requires Failing(op, tx, InRound(answer, round))
    ensures Quiet(es, w) && LayersEnd(op, start, bs, round + 1, tx.branches, answer) && LoopLeft(op, Exec(s, es), w, bs)
    ensures !AllDone(op, bs) && WorkerAt(Exec(s, es), w).Calling?
    ensures WorkerAt(Exec(s, es), w).exhausted <==> op == Action && Exhausting(tx, InRound(answer, round))
  {
    es := RoundRuns(s, w, op, tx, InRound(answer, round));
    bs := WorkerAt(Exec(s, es), w).tx.branches;
    RoundFailed(op, start, tx, bs, round, answer);
  }

  lemma EndsDone(op: Operation, start: seq<Branch>, bs: seq<Branch>, round: nat, last: seq<Branch>,
                 answer: (nat, nat) -> bool)
    requires (op == Action || op == Compensate) && Under(op, start, bs, round) && AllDone(op, bs)
    ensures LayersEnd(op, start, bs, round, last, answer)
  {
    HavingBound(bs, Cleared(op));
  }

  /** Rounds without failure, up to the point where all is done or the next round fails. */
  lemma {:induction false} ReachesLast(
    s: State, w: nat, op: Operation, tx: Transaction, start: seq<Branch>, round: nat, answer: (nat, nat) -> bool)
    returns (es: seq<Event>, last: Transaction, rounds: nat)
    requires Looping(s, w, op, tx) && Under(op, start, tx.branches, round) && LeftOver(op, tx.branches) >= 0
    ensures last.options == tx.options
    ensures Quiet(es, w) && Looping(Exec(s, es), w, op, last) && Under(op, start, last.branches, rounds)
    ensures Ready(op, last.branches) == [] || Failing(op, last, InRound(answer, rounds))
    decreases LeftOver(op, tx.branches)
  {
    if Ready(op, tx.branches) == [] || Failing(op, tx, InRound(answer, round)) {
      es, last, rounds := [], tx, round;
    } else {
      var go, next := RoundGoesOn(s, w, op, tx, start, round, answer);
      var rest;
      rest, last, rounds := ReachesLast(Exec(s, go), w, op, next, start, round + 1, answer);
      es := Joins(s, w, go, rest);
    }
  }

  /** The failed round turned the worker back, if and only if it used up the attempts of a branch. */
  predicate TurnsBack(op: Operation, o: Options, wk: Worker, rounds: nat, last: seq<Branch>, answer: (nat, nat) -> bool) {
    && wk.Calling? && rounds > 0
    && (wk.exhausted <==> op == Action && Exhausts(o, last, InRound(answer, rounds - 1)))
  }

  lemma LastRound(
    s: State, w: nat, op: Operation, tx: Transaction, start: seq<Branch>, round: nat, answer: (nat, nat) -> bool)
    returns (es: seq<Event>, bs: seq<Branch>, rounds: nat)
    requires Looping(s, w, op, tx) && Under(op, start, tx.branches, round)
    requires Ready(op, tx.branches) == [] || Failing(op, tx, InRound(answer, round))
    ensures Quiet(es, w) && LayersEnd(op, start, bs, rounds, tx.branches, answer) && LoopLeft(op, Exec(s, es), w, bs)
    ensures AllDone(op, bs) || TurnsBack(op, tx.options, WorkerAt(Exec(s, es), w), rounds, tx.branches, answer)
  {
    if Ready(op, tx.branches) == [] {
      es := LeavesDone(s, w, op, tx);
      bs, rounds := tx.branches, round;
      EndsDone(op, start, bs, round, tx.branches, answer);
    } else {
      es, bs := RoundLeaves(s, w, op, tx, start, round, answer);
      rounds := round + 1;
    }
  }

  /** From the start of the loop: the worker goes through the rounds of the layered loop until that ends. */
  lemma LoopRuns(s: State, w: nat, op: Operation, tx: Transaction, answer: (nat, nat) -> bool)
    returns (es: seq<Event>, bs: seq<Branch>, rounds: nat, last: seq<Branch>)
    requires Looping(s, w, op, tx)
    ensures Quiet(es, w) && LayersEnd(op, tx.branches, bs, rounds, last, answer) && LoopLeft(op, Exec(s, es), w, bs)
    ensures AllDone(op, bs) || TurnsBack(op, tx.options, WorkerAt(Exec(s, es), w), rounds, last, answer)
  {
    HavingBound(tx.branches, Cleared(op));
    var go, before, r := ReachesLast(s, w, op, tx, tx.branches, 0, answer);
    var rest;
    rest, bs, rounds := LastRound(Exec(s, go), w, op, before, tx.branches, r, answer);
    last := before.branches;
    es := Joins(s, w, go, rest);
  }

  lemma Joins(s: State, w: nat, a: seq<Event>, b: seq<Event>) returns (es: seq<Event>)
    requires Quiet(a, w) && Quiet(b, w)
    ensures Quiet(es, w) && Exec(s, es) == Exec(Exec(s, a), b)
  {
    es := a + b;
    ExecAppend(s, a, b);
  }

  // ---------------------------------------------------------------------
  // Whole passes

  /** What an exhausted forward pass stores. */
  predicate Turned(bs: seq<Branch>, after: seq<Branch>) {
    && SameDefinitions(after, bs)
    && forall i :: 0 <= i < |bs| ==>
         after[i].status == if bs[i].status.Succeeded? then BranchStatus.Compensating else BranchStatus.Skipped
  }

  /** A round with a failure ends the pass: what the calls left is stored, or the Saga is turned back. */
  lemma LeavesFailed(s: State, w: nat, op: Operation, bs: seq<Branch>) returns (es: seq<Event>)
    requires (op == Action || op == Compensate) && LoopLeft(op, s, w, bs) && !AllDone(op, bs)
    requires WorkerAt(s, w).exhausted ==> op == Action
    ensures Quiet(es, w)
    ensures var t := Exec(s, es);
            if WorkerAt(s, w).exhausted then t.stored.status.Aborting? && Turned(bs, t.stored.branches)
            else WorkerAt(t, w).Idle? && t.stored.status == Going(op) && t.stored.branches == bs
  {
    es := [EndLayer(w), Persist(w, 0)];
    RunTwo(s, EndLayer(w), Persist(w, 0));
  }

  lemma FirstWrite(s: State, w: nat, op: Operation, request: Request, tx: Transaction)
    requires WorkerAt(s, w).Idle? && BeginRequest(s.stored, request) == Persisting(op, tx, Loop)
    requires tx.revision == s.stored.revision && (op == Action || op == Compensate) && tx.status == Going(op)
    requires WellFormed(tx.branches) && Clear(op, tx, s.held, {}) && Word32(tx) && DueHaveUrls(op, tx.branches)
    requires op == Compensate ==> Unwinding(tx.branches)
    ensures var t := Step(Step(s, Begin(w, request)), Persist(w, 0));
            Looping(t, w, op, tx.(revision := Next64(tx.revision)))
  {
  }

  /** A start pass that nobody disturbs, with whatever answers: it goes through the rounds of the forward
      loop and stores what they leave. A round that uses up the attempts of a branch turns the Saga
      back. */
  lemma StartPassRuns(s: State, w: nat, answer: (nat, nat) -> bool)
    returns (es: seq<Event>, bs: seq<Branch>, rounds: nat, last: seq<Branch>)
    requires WorkerAt(s, w).Idle? && (s.stored.status.Submitted? || s.stored.status.Succeeding?)
    requires WellFormed(s.stored.branches) && AllCallable(s.stored, s.held) && Word32(s.stored)
    ensures Quiet(es, w) && ActionLayersEnd(s.stored.branches, bs, rounds, last, answer)
    ensures var t := Exec(s, [Begin(w, Start)] + es);
            if AllSucceeded(bs)
            then WorkerAt(t, w).Idle? && t.stored.status.Succeeded? && t.stored.branches == bs
            else rounds > 0 &&
                 if Exhausts(s.stored.options, last, InRound(answer, rounds - 1))
                 then t.stored.status.Aborting? && Turned(bs, t.stored.branches)
                 else WorkerAt(t, w).Idle? && t.stored.status.Succeeding? && t.stored.branches == bs
  {
    var tx := s.stored.(status := Succeeding);
    assert Clear(Action, tx, s.held, {});
    FirstWrite(s, w, Action, Start, tx);
    es, bs, rounds, last := PassRuns(s, w, Action, Start, tx, answer);
  }

  lemma PassRuns(s: State, w: nat, op: Operation, request: Request, tx: Transaction, answer: (nat, nat) -> bool)
    returns (es: seq<Event>, bs: seq<Branch>, rounds: nat, last: seq<Branch>)
    requires op == Action || op == Compensate
    requires var t := Step(Step(s, Begin(w, request)), Persist(w, 0));
             Looping(t, w, op, tx.(revision := Next64(tx.revision)))
    ensures Quiet(es, w) && LayersEnd(op, tx.branches, bs, rounds, last, answer)
    ensures var t := Exec(s, [Begin(w, request)] + es);
            if AllDone(op, bs)
            then WorkerAt(t, w).Idle? && t.stored.status == Finished(op) && t.stored.branches == bs
            else rounds > 0 &&
                 if op == Action && Exhausts(tx.options, last, InRound(answer, rounds - 1))
                 then t.stored.status.Aborting? && Turned(bs, t.stored.branches)
                 else WorkerAt(t, w).Idle? && t.stored.status == Going(op) && t.stored.branches == bs
  {
    var first := [Begin(w, request), Persist(w, 0)];
    RunTwo(s, Begin(w, request), Persist(w, 0));
    var s2 := Exec(s, first);
    var loop;
    loop, bs, rounds, last := LoopRuns(s2, w, op, tx.(revision := Next64(tx.revision)), answer);
    var s3, rest := Exec(s2, loop), [];
    if !AllDone(op, bs) { rest := LeavesFailed(s3, w, op, bs); }
    var both := Joins(s2, w, loop, rest);
    es := [Persist(w, 0)] + both;
    ExecAppend(s, first, both);
    assert [Begin(w, request)] + es == first + both;
  }

  /** The same for an abort pass, which goes through the rounds of the compensation loop. */
  lemma AbortPassRuns(s: State, w: nat, answer: (nat, nat) -> bool)
    returns (es: seq<Event>, bs: seq<Branch>, rounds: nat, last: seq<Branch>)
    requires WorkerAt(s, w).Idle?
    requires s.stored.status.Submitted? || s.stored.status.Succeeding? || s.stored.status.Aborting?
    requires WellFormed(s.stored.branches) && AllUndoable(s.stored, s.held) && Word32(s.stored)
    requires forall b :: b in s.stored.branches && Recorded(b) ==> b.compensate.Some?
    ensures Quiet(es, w) && CompensationLayersEnd(MarkAllAborting(s.stored.branches), bs, rounds, last, answer)
    ensures var t := Exec(s, [Begin(w, Abort)] + es);
            && WorkerAt(t, w).Idle? && t.stored.branches == bs
            && t.stored.status == if NoneCompensating(bs) then Aborted else Aborting
  {
    var tx := EnterAborting(s.stored);
    var i := MarkedDue(s.stored, s.held);
    SameGraph(tx.branches, s.stored.branches);
    forall i: nat | i < |tx.branches| && Due(Compensate, tx.branches[i]) ensures HasUrl(Compensate, tx.branches[i]) {
      assert s.stored.branches[i] in s.stored.branches && Definition(tx.branches[i]) == Definition(s.stored.branches[i]);
    }
    FirstWrite(s, w, Compensate, Abort, tx);
    es, bs, rounds, last := PassRuns(s, w, Compensate, Abort, tx, answer);
  }

  /** So every Saga as submitted has a run of one pass that stores Succeeded. */
  lemma CanSucceed(s: State, w: nat) returns (es: seq<Event>)
    requires ConcurrentSaga.Submitted(s) && Word32(s.stored)
    ensures Quiet(es, w) && Exec(s, [Begin(w, Start)] + es).stored.status.Succeeded?
  {
    var bs, rounds, last;
    es, bs, rounds, last := StartPassRuns(s, w, (round, i) => true);
  }
}
