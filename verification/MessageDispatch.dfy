/** When a stored Succeeded means that a Message was delivered in order. A dispatch that goes in order
    takes a held barrier for a finished delivery. It is safe when no barrier is held without a
    successful delivery and no other dispatch is on its way to one; every other dispatch of a decided
    Message can store Succeeded although a branch was not delivered. */
module MessageDispatch {
  import opened Core
  import opened Edits
  import opened Message
  import S = MessageSafety
  import B = MessageBarriers
  import G = DependencyGraph

  // ---------------------------------------------------------------------
  // The condition on a dispatch request

  /** Some branch from k on would be claimed by a pass that goes in order. */
  predicate Claimable(tx: Transaction, k: nat, held: set<Key>) {
    exists j :: k <= j < |tx.branches| && !tx.branches[j].status.Succeeded? && KeyOf(tx, j) !in held
  }

  /** The worker is on its way to claim a barrier. */
  predicate MayClaim(wk: Worker, held: set<Key>) {
    match wk
    case AtClock(tx) => !tx.options.concurrent && Claimable(tx, 0, held)
    case InOrder(tx, k) => Claimable(tx, k, held)
    case _ => false
  }

  /** Every barrier that the record's branches hold stands for a successful delivery, and no other
      worker is about to claim one. */
  ghost predicate SafeToDispatch(s: State, w: nat) {
    && (forall i :: 0 <= i < |s.stored.branches| && KeyOf(s.stored, i) in s.held ==>
          OkFor(s.log, KeyOf(s.stored, i)))
    && forall v :: v != w ==> !MayClaim(WorkerAt(s, v), s.held)
  }

  /** The worker that takes up a dispatch of the decided Message in this event. On any other record a
      dispatch does nothing, or stores the decision first. */
  function Dispatcher(s: State, e: Event): Option<nat> {
    if !s.stored.status.Succeeding? then None
    else match e
      case Begin(w, Dispatch) => if WorkerAt(s, w).Idle? then Some(w) else None
      case Load(w) => if WorkerAt(s, w) == Chosen(Dispatch) then Some(w) else None
      case _ => None
  }

  /** Every dispatch of the decided Message is safe when a worker takes it up. */
  ghost predicate DispatchesSafely(s: State, es: seq<Event>)
    decreases |es|
  {
    es != [] ==>
      && (Dispatcher(s, es[0]).Some? ==> SafeToDispatch(s, Dispatcher(s, es[0]).value))
      && DispatchesSafely(Step(s, es[0]), es[1..])
  }

  // ---------------------------------------------------------------------
  // The invariant

  predicate Delivered(log: seq<LogEvent>, names: seq<string>, i: nat)
    requires i < |names|
  {
    OkFor(log, B.KeyFor(names, i))
  }

  predicate DeliveredBelow(log: seq<LogEvent>, names: seq<string>, k: nat) {
    forall i: nat :: i < k && i < |names| ==> Delivered(log, names, i)
  }

  predicate LogNamed(log: seq<LogEvent>, names: seq<string>) {
    forall p :: 0 <= p < |log| && log[p].Answered? && log[p].op == Deliver ==>
      log[p].index < |names| && log[p].id == names[log[p].index]
  }

  predicate Dispatching(wk: Worker) { wk.AtClock? || wk.InOrder? || wk.InOrderCall? }

  predicate WorkerCalm(s: State, names: seq<string>, wk: Worker) {
    match wk
    case Idle | Chosen(_) | AtClock(_) => true
    case Persisting(tx, next) =>
      && !next.InvokeAll?
      && (next.CheckClock? && tx.revision == s.stored.revision ==> Undecided(s.stored))
      && (tx.status.Succeeded? ==> DeliveredBelow(s.log, names, |names|))
    case InOrder(_, k) => DeliveredBelow(s.log, names, k)
    case InOrderCall(_, k, call) => DeliveredBelow(s.log, names, k) && call != Replied(true)
    case _ => false
  }

  /** What a dispatching worker finds held was delivered, but for its own claim. */
  predicate FindsDelivered(s: State, names: seq<string>, wk: Worker) {
    Dispatching(wk) ==>
      forall i: nat :: i < |names| && B.KeyFor(names, i) in s.held ==>
        Delivered(s.log, names, i) || (wk.InOrderCall? && wk.k < |names| && names[wk.k] == names[i])
  }

  /** Two dispatches run at once only when everything was delivered. */
  ghost predicate OneDispatch(s: State, names: seq<string>, v: nat, w: nat) {
    v != w && Dispatching(WorkerAt(s, v)) && Dispatching(WorkerAt(s, w)) ==> DeliveredBelow(s.log, names, |names|)
  }

  ghost predicate Calm(s: State, names: seq<string>) {
    && !s.stored.options.concurrent && LogNamed(s.log, names)
    && (s.held != {} ==> S.Decided(s.log))
    && (s.stored.status.Succeeded? ==> DeliveredBelow(s.log, names, |names|))
    && (forall w :: WorkerCalm(s, names, WorkerAt(s, w)) && FindsDelivered(s, names, WorkerAt(s, w)))
    && forall v, w :: OneDispatch(s, names, v, w)
  }

  ghost predicate Good(s: State, names: seq<string>) { S.Inv(s) && B.Ok(s, names) && Calm(s, names) }

  // ---------------------------------------------------------------------
  // Steps that make no delivery

  lemma SameBelow(log: seq<LogEvent>, log': seq<LogEvent>, names: seq<string>)
    requires forall key :: OkFor(log, key) ==> OkFor(log', key)
    ensures forall k: nat :: DeliveredBelow(log, names, k) ==> DeliveredBelow(log', names, k)
  {
    forall k: nat | DeliveredBelow(log, names, k) ensures DeliveredBelow(log', names, k) {
      forall i: nat | i < k && i < |names| ensures Delivered(log', names, i) { assert Delivered(log, names, i); }
    }
  }

  /** Worker w moves on; nothing new is held, and the log shows no answer. */
  lemma Moves(s: State, s': State, w: nat, names: seq<string>)
    requires Calm(s, names) && B.OnlyMoves(s, s', w) && s'.held <= s.held
    requires s'.stored == s.stored && LogNamed(s'.log, names)
    requires forall key :: OkFor(s'.log, key) <==> OkFor(s.log, key)
    requires S.Decided(s.log) ==> S.Decided(s'.log)
    requires WorkerCalm(s', names, WorkerAt(s', w)) && FindsDelivered(s', names, WorkerAt(s', w))
    requires Dispatching(WorkerAt(s', w)) ==> Dispatching(WorkerAt(s, w))
    ensures Calm(s', names)
  {
    SameBelow(s.log, s'.log, names);
    SameBelow(s'.log, s.log, names);
    forall v ensures WorkerCalm(s', names, WorkerAt(s', v)) && FindsDelivered(s', names, WorkerAt(s', v)) {
      assert WorkerCalm(s, names, WorkerAt(s, v)) && FindsDelivered(s, names, WorkerAt(s, v));
    }
    forall v, u ensures OneDispatch(s', names, v, u) { assert OneDispatch(s, names, v, u); }
  }

  /** A branch shown as Succeeded was delivered. */
  lemma BackedIsDelivered(s: State, names: seq<string>, tx: Transaction, j: nat)
    requires LogNamed(s.log, names) && S.Backed(s, tx.branches) && Ids(tx.branches) == names
    requires j < |names| && tx.branches[j].status.Succeeded?
    ensures Delivered(s.log, names, j)
  {
    assert S.Delivered(s.log, j);
    var p :| 0 <= p < |s.log| && s.log[p].Answered? && s.log[p].op == Deliver && s.log[p].index == j && s.log[p].ok;
    assert SuccessOf(s.log[p], B.KeyFor(names, j));
  }

  /** A call in progress holds a barrier without a delivery. */
  lemma CallIsUnsafe(s: State, names: seq<string>, w: nat, v: nat)
    requires B.Ok(s, names) && Calm(s, names) && WorkerAt(s, v).InOrderCall?
    ensures !SafeToDispatch(s, w)
  {
    var wk := WorkerAt(s, v);
    assert B.Shape(names, wk) && WorkerCalm(s, names, wk) && B.HeldFresh(s, names, v, wk.k);
    assert Ids(s.stored.branches)[wk.k] == names[wk.k];
    assert KeyOf(s.stored, wk.k) == B.KeyFor(names, wk.k);
  }

  /** A worker that has nothing left to claim, among barriers that all stand for deliveries, shows
      that everything was delivered. */
  lemma NothingLeft(s: State, names: seq<string>, w: nat, v: nat)
    requires Good(s, names) && SafeToDispatch(s, w) && v != w && Dispatching(WorkerAt(s, v))
    ensures DeliveredBelow(s.log, names, |names|)
  {
    var wk := WorkerAt(s, v);
    if wk.InOrderCall? { CallIsUnsafe(s, names, w, v); }
    assert S.WorkerOk(s, wk) && B.Shape(names, wk) && WorkerCalm(s, names, wk);
    assert Ids(s.stored.branches) == names && Ids(wk.tx.branches) == names;
    forall j: nat | j < |names| ensures Delivered(s.log, names, j) {
      assert KeyOf(s.stored, j) == B.KeyFor(names, j) == KeyOf(wk.tx, j) by {
        assert Ids(s.stored.branches)[j] == names[j] == Ids(wk.tx.branches)[j];
      }
      if wk.tx.branches[j].status.Succeeded? {
        BackedIsDelivered(s, names, wk.tx, j);
      } else if wk.AtClock? || j >= wk.k {
        assert !MayClaim(wk, s.held);
      }
    }
  }

  // ---------------------------------------------------------------------
  // Steps

  lemma BeginCalm(s: State, w: nat, request: Request, names: seq<string>)
    requires Good(s, names) && (WorkerAt(s, w).Idle? || WorkerAt(s, w).Chosen?)
    requires request.Dispatch? && s.stored.status.Succeeding? ==> SafeToDispatch(s, w)
    ensures Calm(Goto(s, w, BeginRequest(s.stored, request)), names)
  {
    var wk := BeginRequest(s.stored, request);
    var s' := Goto(s, w, wk);
    if !wk.AtClock? {
      Moves(s, s', w, names);
    } else {
      assert FindsDelivered(s', names, wk) by {
        forall i: nat | i < |names| && B.KeyFor(names, i) in s.held ensures Delivered(s.log, names, i) {
          assert Ids(s.stored.branches)[i] == names[i];
          assert KeyOf(s.stored, i) == B.KeyFor(names, i);
        }
      }
      forall v ensures WorkerCalm(s', names, WorkerAt(s', v)) && FindsDelivered(s', names, WorkerAt(s', v)) {
        assert WorkerCalm(s, names, WorkerAt(s, v)) && FindsDelivered(s, names, WorkerAt(s, v));
      }
      forall v, u ensures OneDispatch(s', names, v, u) {
        assert OneDispatch(s, names, v, u);
        if v != w && Dispatching(WorkerAt(s, v)) { NothingLeft(s, names, w, v); }
        if u != w && Dispatching(WorkerAt(s, u)) { NothingLeft(s, names, w, u); }
      }
    }
  }

  /** While the decision is open, nothing is held and nobody dispatches. */
  lemma OpenIsQuiet(s: State, names: seq<string>, v: nat)
    requires S.Inv(s) && Calm(s, names) && Undecided(s.stored)
    ensures s.held == {} && !Dispatching(WorkerAt(s, v))
  {
    if v in s.workers { assert S.WorkerOk(s, s.workers[v]); }
  }

  lemma StoredSame(log: seq<LogEvent>, status: TransactionStatus, names: seq<string>)
    requires LogNamed(log, names)
    ensures LogNamed(log + [Stored(status)], names)
    ensures forall key :: OkFor(log + [Stored(status)], key) <==> OkFor(log, key)
    ensures S.Decided(log) ==> S.Decided(log + [Stored(status)])
  {
    OkForAppend(log, Stored(status));
    S.DecidedAppend(log, Stored(status));
  }

  /** The write itself, with the writer gone idle. */
  lemma AcceptCalm(s: State, w: nat, time: nat, names: seq<string>)
    requires Good(s, names) && s.stored.revision < MAX_U64 && WorkerAt(s, w).Persisting?
    requires WorkerAt(s, w).tx.revision == s.stored.revision
    ensures Calm(Goto(Accept(s, WorkerAt(s, w).tx, time), w, Idle), names)
  {
    var wk := WorkerAt(s, w);
    var s' := Goto(Accept(s, wk.tx, time), w, Idle);
    assert S.WorkerOk(s, wk) && WorkerCalm(s, names, wk);
    StoredSame(s.log, wk.tx.status, names);
    SameBelow(s.log, s'.log, names);
    forall v ensures WorkerCalm(s', names, WorkerAt(s', v)) && FindsDelivered(s', names, WorkerAt(s', v)) {
      assert WorkerCalm(s, names, WorkerAt(s, v)) && FindsDelivered(s, names, WorkerAt(s, v));
      if v in s.workers { assert S.WorkerOk(s, s.workers[v]); }
    }
    forall v, u ensures OneDispatch(s', names, v, u) { assert OneDispatch(s, names, v, u); }
  }

  lemma PersistCalm(s: State, w: nat, time: nat, names: seq<string>)
    requires Good(s, names) && s.stored.revision < MAX_U64
    ensures Calm(PersistStep(s, w, time), names)
  {
    var wk, s' := WorkerAt(s, w), PersistStep(s, w, time);
    if wk.Persisting? {
      assert WorkerCalm(s, names, wk);
      if wk.tx.revision != s.stored.revision {
        Moves(s, s', w, names);
      } else {
        var a := Goto(Accept(s, wk.tx, time), w, Idle);
        AcceptCalm(s, w, time, names);
        if wk.next.CheckClock? {
          forall v ensures WorkerCalm(s', names, WorkerAt(s', v)) && FindsDelivered(s', names, WorkerAt(s', v)) {
            assert WorkerCalm(a, names, WorkerAt(a, v)) && FindsDelivered(a, names, WorkerAt(a, v));
            OpenIsQuiet(s, names, v);
          }
          forall v, u ensures OneDispatch(s', names, v, u) { OpenIsQuiet(s, names, v); OpenIsQuiet(s, names, u); }
        } else {
          assert s' == a;
        }
      }
    }
  }

  lemma ClaimCalm(s: State, w: nat, k: nat, s': State, names: seq<string>)
    requires B.Ok(s, names) && Calm(s, names) && S.Decided(s.log) && WorkerAt(s, w).InOrder? && WorkerAt(s, w).k == k < |names|
    requires B.OnlyMoves(s, s', w) && WorkerAt(s', w).InOrderCall? && WorkerAt(s', w).k == k && WorkerAt(s', w).call == Spawned
    requires B.KeyFor(names, k) !in s.held && s'.held == s.held + {B.KeyFor(names, k)}
    requires s'.stored == s.stored && s'.log == s.log
    ensures Calm(s', names)
  {
    forall v ensures WorkerCalm(s', names, WorkerAt(s', v)) && FindsDelivered(s', names, WorkerAt(s', v)) {
      assert WorkerCalm(s, names, WorkerAt(s, v)) && FindsDelivered(s, names, WorkerAt(s, v));
      assert OneDispatch(s, names, v, w);
      assert DeliveredBelow(s.log, names, |names|) ==> Delivered(s.log, names, k);
      assert FindsDelivered(s, names, WorkerAt(s, w)) && WorkerCalm(s, names, WorkerAt(s, w));
    }
    forall v, u ensures OneDispatch(s', names, v, u) { assert OneDispatch(s, names, v, u); }
  }

  /** Going past a branch that was delivered. */
  lemma PassesDelivered(s: State, s': State, w: nat, tx: Transaction, k: nat, names: seq<string>)
    requires Calm(s, names) && WorkerAt(s, w) == InOrder(tx, k) && WorkerAt(s', w) == InOrder(tx, k + 1)
    requires k < |names| && (Delivered(s.log, names, k) || B.KeyFor(names, k) in s.held)
    requires B.OnlyMoves(s, s', w) && s'.held == s.held && s'.log == s.log && s'.stored == s.stored
    ensures Calm(s', names)
  {
    assert WorkerCalm(s, names, InOrder(tx, k)) && FindsDelivered(s, names, InOrder(tx, k));
    assert Delivered(s.log, names, k);
    Moves(s, s', w, names);
  }

  lemma InOrderCalm(s: State, w: nat, tx: Transaction, k: nat, names: seq<string>)
    requires Good(s, names) && WorkerAt(s, w) == InOrder(tx, k)
    ensures Calm(AdvanceStep(s, w), names)
  {
    var wk, s' := WorkerAt(s, w), AdvanceStep(s, w);
    assert WorkerCalm(s, names, wk) && FindsDelivered(s, names, wk) && S.WorkerOk(s, wk) && B.Shape(names, wk);
    assert |Ids(tx.branches)| == |names|;
    if k >= |names| {
      Moves(s, s', w, names);
    } else {
      assert Ids(tx.branches)[k] == names[k];
      assert KeyOf(tx, k) == B.KeyFor(names, k);
      if tx.branches[k].status.Succeeded? {
        BackedIsDelivered(s, names, tx, k);
        PassesDelivered(s, s', w, tx, k, names);
      } else if KeyOf(tx, k) in s.held {
        PassesDelivered(s, s', w, tx, k, names);
      } else {
        ClaimCalm(s, w, k, s', names);
      }
    }
  }

  lemma AdvanceCalm(s: State, w: nat, names: seq<string>)
    requires Good(s, names)
    ensures Calm(AdvanceStep(s, w), names)
  {
    var wk := WorkerAt(s, w);
    assert WorkerCalm(s, names, wk) && FindsDelivered(s, names, wk);
    if wk.AtClock? {
      assert S.WorkerOk(s, wk);
      Moves(s, AdvanceStep(s, w), w, names);
    } else if wk.InOrder? {
      InOrderCalm(s, w, wk.tx, wk.k, names);
    }
  }

  lemma IssueCalm(s: State, w: nat, i: nat, names: seq<string>)
    requires Good(s, names)
    ensures Calm(IssueStep(s, w, i), names)
  {
    var wk, s' := WorkerAt(s, w), IssueStep(s, w, i);
    assert WorkerCalm(s, names, wk) && FindsDelivered(s, names, wk);
    if s' != s {
      var e := s'.log[|s.log|];
      assert s'.log == s.log + [e];
      OkForAppend(s.log, e);
      S.DecidedAppend(s.log, e);
      SameBelow(s.log, s'.log, names);
      Moves(s, s', w, names);
    }
  }

  lemma AnswerLog(s: State, w: nat, i: nat, ok: bool, names: seq<string>) returns (e: LogEvent)
    requires Good(s, names) && AnswerStep(s, w, i, ok) != s
    ensures WorkerAt(s, w).InOrderCall? && WorkerAt(s, w).k == i < |names|
    ensures e == Answered(Deliver, i, names[i], ok) && AnswerStep(s, w, i, ok).log == s.log + [e]
    ensures LogNamed(s.log + [e], names) && S.Decided(s.log + [e])
    ensures forall key :: OkFor(s.log + [e], key) <==> OkFor(s.log, key) || (ok && key == B.KeyFor(names, i))
  {
    var wk := WorkerAt(s, w);
    assert WorkerCalm(s, names, wk);
    assert B.Shape(names, wk) && S.WorkerOk(s, wk);
    assert Ids(wk.tx.branches)[i] == names[i];
    e := Answered(Deliver, i, names[i], ok);
    OkForAppend(s.log, e);
    S.DecidedAppend(s.log, e);
  }

  lemma AnswerCalm(s: State, w: nat, i: nat, ok: bool, names: seq<string>)
    requires Good(s, names)
    ensures Calm(AnswerStep(s, w, i, ok), names)
  {
    var wk, s' := WorkerAt(s, w), AnswerStep(s, w, i, ok);
    if s' != s {
      var e := AnswerLog(s, w, i, ok, names);
      SameBelow(s.log, s'.log, names);
      assert WorkerCalm(s, names, wk) && FindsDelivered(s, names, wk);
      if !ok {
        Moves(s, s', w, names);
      } else {
        DeliveryCalm(s, s', w, i, names);
      }
    }
  }

  lemma DeliveryCalm(s: State, s': State, w: nat, i: nat, names: seq<string>)
    requires Calm(s, names) && B.OnlyMoves(s, s', w) && s'.held == s.held && s'.stored == s.stored
    requires WorkerAt(s, w).InOrderCall? && WorkerAt(s, w).k == i < |names|
    requires WorkerAt(s', w).InOrder? && WorkerAt(s', w).k == i + 1
    requires forall key :: OkFor(s'.log, key) <==> OkFor(s.log, key) || key == B.KeyFor(names, i)
    requires LogNamed(s'.log, names) && S.Decided(s'.log)
    ensures Calm(s', names)
  {
    SameBelow(s.log, s'.log, names);
    assert WorkerCalm(s, names, WorkerAt(s, w)) && Delivered(s'.log, names, i);
    forall v ensures WorkerCalm(s', names, WorkerAt(s', v)) && FindsDelivered(s', names, WorkerAt(s', v)) {
      assert WorkerCalm(s, names, WorkerAt(s, v)) && FindsDelivered(s, names, WorkerAt(s, v));
    }
    forall v, u ensures OneDispatch(s', names, v, u) { assert OneDispatch(s, names, v, u); }
  }

  lemma JoinCalm(s: State, w: nat, i: nat, retryAt: nat, names: seq<string>)
    requires Good(s, names)
    ensures Calm(JoinStep(s, w, i, retryAt), names)
  {
    var wk, s' := WorkerAt(s, w), JoinStep(s, w, i, retryAt);
    assert WorkerCalm(s, names, wk);
    if s' != s {
      assert S.WorkerOk(s, wk);
      Moves(s, s', w, names);
    }
  }

  lemma StepCalm(s: State, e: Event, names: seq<string>)
    requires Good(s, names) && s.stored.revision < MAX_U64
    requires Dispatcher(s, e).Some? ==> SafeToDispatch(s, Dispatcher(s, e).value)
    ensures Calm(Step(s, e), names)
  {
    var s' := Step(s, e);
    match e
    case Pass(_) =>
      assert WorkerCalm(s, names, WorkerAt(s, 0)) && FindsDelivered(s, names, WorkerAt(s, 0));
      Moves(s, s', 0, names);
    case Begin(w, request) => if WorkerAt(s, w).Idle? { BeginCalm(s, w, request, names); }
    case Recover(w, _) => if s' != s { Moves(s, s', w, names); }
    case Load(w) => if WorkerAt(s, w).Chosen? { BeginCalm(s, w, WorkerAt(s, w).request, names); }
    case Persist(w, time) => PersistCalm(s, w, time, names);
    case Advance(w) => AdvanceCalm(s, w, names);
    case Release(w) => assert WorkerCalm(s, names, WorkerAt(s, w));
    case Issue(w, i) => IssueCalm(s, w, i, names);
    case Answer(w, i, ok) => AnswerCalm(s, w, i, ok, names);
    case Join(w, i, retryAt) => JoinCalm(s, w, i, retryAt, names);
    case EndLayer(w) => assert WorkerCalm(s, names, WorkerAt(s, w));
    case Crash(w) => Moves(s, s', w, names);
  }

  lemma {:induction false} ExecCalm(s: State, es: seq<Event>, names: seq<string>)
    requires Good(s, names) && Exec(s, es).stored.revision < MAX_U64 && DispatchesSafely(s, es)
    ensures Calm(Exec(s, es), names)
    decreases |es|
  {
    if es != [] {
      S.RevisionMonotone(s, es);
      StepCalm(s, es[0], names);
      S.StepKeeps(s, es[0]);
      B.StepOk(s, es[0], names);
      ExecCalm(Step(s, es[0]), es[1..], names);
    }
  }

  lemma StepNamed(s: State, e: Event, names: seq<string>)
    requires B.Ok(s, names) && LogNamed(s.log, names)
    ensures LogNamed(Step(s, e).log, names)
  {
    if e.Answer? && Step(s, e) != s {
      var wk := WorkerAt(s, e.worker);
      assert B.Shape(names, wk);
      assert Ids(wk.tx.branches)[e.index] == names[e.index];
    }
  }

  lemma {:induction false} ExecNamed(s: State, es: seq<Event>, names: seq<string>)
    requires B.Ok(s, names) && LogNamed(s.log, names)
    ensures LogNamed(Exec(s, es).log, names)
    decreases |es|
  {
    if es != [] {
      StepNamed(s, es[0], names);
      B.StepOk(s, es[0], names);
      ExecNamed(Step(s, es[0]), es[1..], names);
    }
  }

  /** Submission refuses a Message whose ids repeat; then barriers and branches are the same thing. */
  lemma BarrierIsBranch(log: seq<LogEvent>, bs: seq<Branch>, i: nat)
    requires LogNamed(log, Ids(bs)) && i < |bs|
    ensures AnsweredOk(log, Deliver, i) ==> OkFor(log, Key(bs[i].id, Deliver))
    ensures G.UniqueIds(bs) && OkFor(log, Key(bs[i].id, Deliver)) ==> AnsweredOk(log, Deliver, i)
  {
    if AnsweredOk(log, Deliver, i) {
      var p :| 0 <= p < |log| && log[p].Answered? && log[p].op == Deliver && log[p].index == i && log[p].ok;
      assert SuccessOf(log[p], Key(bs[i].id, Deliver));
    }
    if G.UniqueIds(bs) && OkFor(log, Key(bs[i].id, Deliver)) {
      var p :| 0 <= p < |log| && SuccessOf(log[p], Key(bs[i].id, Deliver));
      assert bs[log[p].index].id == bs[i].id;
    }
  }

  /** If every dispatch of a decided in-order Message is safe when a worker takes it up, then a stored
      Succeeded means that every branch was delivered, wherever passes stop. */
  lemma SafeDispatchesDeliver(s: State, es: seq<Event>, i: nat)
    requires Message.Fresh(s) && !s.stored.options.concurrent && Exec(s, es).stored.revision < MAX_U64
    requires DispatchesSafely(s, es)
    requires Exec(s, es).stored.status.Succeeded? && i < |Exec(s, es).stored.branches|
    ensures OkFor(Exec(s, es).log, KeyOf(Exec(s, es).stored, i))
    ensures G.UniqueIds(s.stored.branches) ==> AnsweredOk(Exec(s, es).log, Deliver, i)
  {
    var names := Ids(s.stored.branches);
    S.RevisionMonotone(s, es);
    S.RunInv(s, []);
    ExecCalm(s, es, names);
    B.ExecOk(s, es, names);
    var end := Exec(s, es);
    assert Ids(end.stored.branches) == names && end.stored.branches[i].id == Ids(end.stored.branches)[i];
    assert Delivered(end.log, names, i);
    BarrierIsBranch(end.log, s.stored.branches, i);
  }

  /** A Message as submitted is safe to dispatch. */
  lemma FreshIsSafe(s: State, w: nat)
    requires Message.Fresh(s)
    ensures SafeToDispatch(s, w)
  {
  }

  // ---------------------------------------------------------------------
  // Every unsafe dispatch can lose a delivery

  /** The key is held without a delivery, and worker w dispatches the record as it stands. */
  predicate Missing(s: State, w: nat, key: Key) {
    && key in s.held && !OkFor(s.log, key)
    && WorkerAt(s, w).InOrder? && WorkerAt(s, w).tx.revision == s.stored.revision
  }

  lemma PassOver(s: State, w: nat, key: Key)
    requires Missing(s, w, key) && WorkerAt(s, w).k < |WorkerAt(s, w).tx.branches|
    requires WorkerAt(s, w).tx.branches[WorkerAt(s, w).k].status.Succeeded?
             || KeyOf(WorkerAt(s, w).tx, WorkerAt(s, w).k) in s.held
    ensures Step(s, Advance(w)).workers == s.workers[w := InOrder(WorkerAt(s, w).tx, WorkerAt(s, w).k + 1)]
    ensures Missing(Step(s, Advance(w)), w, key)
  {
  }

  /** A branch that is free is called with success on the way. */
  lemma DeliverNext(s: State, w: nat, key: Key)
    requires Missing(s, w, key) && WorkerAt(s, w).k < |WorkerAt(s, w).tx.branches|
    requires !WorkerAt(s, w).tx.branches[WorkerAt(s, w).k].status.Succeeded?
    requires KeyOf(WorkerAt(s, w).tx, WorkerAt(s, w).k) !in s.held
    ensures var k := WorkerAt(s, w).k;
            var t := Step(Step(Step(s, Advance(w)), Issue(w, k)), Answer(w, k, true));
            && Missing(t, w, key) && WorkerAt(t, w).k == k + 1
            && |WorkerAt(t, w).tx.branches| == |WorkerAt(s, w).tx.branches|
  {
    var tx, k := WorkerAt(s, w).tx, WorkerAt(s, w).k;
    var running := tx.(branches := tx.branches[k := StartRunning(tx.branches[k])]);
    var s1 := AdvanceStep(s, w);
    assert WorkerAt(s1, w) == InOrderCall(running, k, Spawned) && s1.log == s.log;
    var s2 := IssueStep(s1, w, k);
    assert WorkerAt(s2, w) == InOrderCall(running, k, Open) && s2.log == s.log + [Issued(Deliver, k, tx.branches[k].id, s.now)];
    OkForAppend(s.log, s2.log[|s.log|]);
    OkForAppend(s2.log, Answered(Deliver, k, tx.branches[k].id, true));
  }

  lemma Finish(s: State, w: nat, key: Key)
    requires Missing(s, w, key) && WorkerAt(s, w).k >= |WorkerAt(s, w).tx.branches|
    ensures var t := Step(Step(s, Advance(w)), Persist(w, 0)); t.stored.status.Succeeded? && !OkFor(t.log, key)
  {
    OkForAppend(s.log, Stored(TransactionStatus.Succeeded));
  }

  lemma RunTwo(s: State, a: Event, b: Event)
    ensures Exec(s, [a, b]) == Step(Step(s, a), b)
  {
    var s1 := Step(s, a);
    assert [a, b][1..] == [b] && [b][1..] == [];
    assert Exec(s1, [b]) == Exec(Step(s1, b), []);
  }

  lemma RunThree(s: State, a: Event, b: Event, c: Event)
    ensures Exec(s, [a, b, c]) == Step(Step(Step(s, a), b), c)
  {
    assert [a, b, c][1..] == [b, c];
    RunTwo(Step(s, a), b, c);
  }

  lemma {:induction false} RunsPast(s: State, w: nat, key: Key) returns (es: seq<Event>)
    requires Missing(s, w, key)
    ensures Exec(s, es).stored.status.Succeeded? && !OkFor(Exec(s, es).log, key)
    decreases |WorkerAt(s, w).tx.branches| - WorkerAt(s, w).k
  {
    var tx, k := WorkerAt(s, w).tx, WorkerAt(s, w).k;
    if k >= |tx.branches| {
      es := [Advance(w), Persist(w, 0)];
      RunTwo(s, Advance(w), Persist(w, 0));
      Finish(s, w, key);
    } else if tx.branches[k].status.Succeeded? || KeyOf(tx, k) in s.held {
      PassOver(s, w, key);
      var rest := RunsPast(Step(s, Advance(w)), w, key);
      es := [Advance(w)] + rest;
      assert es[1..] == rest;
    } else {
      DeliverNext(s, w, key);
      RunThree(s, Advance(w), Issue(w, k), Answer(w, k, true));
      var call := [Advance(w), Issue(w, k), Answer(w, k, true)];
      var rest := RunsPast(Exec(s, call), w, key);
      S.ExecAppend(s, call, rest);
      es := call + rest;
    }
  }

  /** Worker w is past its load, with the record as it stands. */
  predicate Loaded(s: State, w: nat) {
    WorkerAt(s, w).AtClock? && WorkerAt(s, w).tx.revision == s.stored.revision && !WorkerAt(s, w).tx.options.concurrent
  }

  lemma LosesFromClock(s: State, w: nat, key: Key) returns (es: seq<Event>)
    requires Loaded(s, w) && key in s.held && !OkFor(s.log, key)
    ensures Exec(s, es).stored.status.Succeeded? && !OkFor(Exec(s, es).log, key)
  {
    var wait := Pass(DispatchAt(WorkerAt(s, w).tx));
    RunTwo(s, wait, Advance(w));
    var t := Exec(s, [wait, Advance(w)]);
    assert Missing(t, w, key);
    var rest := RunsPast(t, w, key);
    es := [wait, Advance(w)] + rest;
    S.ExecAppend(s, [wait, Advance(w)], rest);
  }

  /** Others see v's moves only in what is held. */
  ghost predicate Aside(s: State, t: State, v: nat) {
    t.stored == s.stored && t.log == s.log && forall u :: u != v ==> WorkerAt(t, u) == WorkerAt(s, u)
  }

  lemma {:induction false} ReachesClaim(s: State, v: nat) returns (es: seq<Event>, j: nat)
    requires WorkerAt(s, v).InOrder? && Claimable(WorkerAt(s, v).tx, WorkerAt(s, v).k, s.held)
    ensures j < |WorkerAt(s, v).tx.branches| && KeyOf(WorkerAt(s, v).tx, j) !in s.held
    ensures Aside(s, Exec(s, es), v) && KeyOf(WorkerAt(s, v).tx, j) in Exec(s, es).held
    decreases |WorkerAt(s, v).tx.branches| - WorkerAt(s, v).k
  {
    var tx, k := WorkerAt(s, v).tx, WorkerAt(s, v).k;
    var t := Step(s, Advance(v));
    if tx.branches[k].status.Succeeded? || KeyOf(tx, k) in s.held {
      assert WorkerAt(t, v) == InOrder(tx, k + 1) && t.held == s.held;
      var rest, i := ReachesClaim(t, v);
      es, j := [Advance(v)] + rest, i;
      assert es[1..] == rest;
    } else {
      es, j := [Advance(v)], k;
      assert es[1..] == [] && Exec(t, []) == t;
    }
  }

  lemma ReachesClaimFromClock(s: State, v: nat) returns (es: seq<Event>, j: nat)
    requires MayClaim(WorkerAt(s, v), s.held)
    ensures j < |WorkerAt(s, v).tx.branches| && KeyOf(WorkerAt(s, v).tx, j) !in s.held
    ensures Aside(s, Exec(s, es), v) && KeyOf(WorkerAt(s, v).tx, j) in Exec(s, es).held
  {
    if WorkerAt(s, v).InOrder? {
      es, j := ReachesClaim(s, v);
    } else {
      var wait := Pass(DispatchAt(WorkerAt(s, v).tx));
      RunTwo(s, wait, Advance(v));
      var rest, i := ReachesClaim(Exec(s, [wait, Advance(v)]), v);
      es, j := [wait, Advance(v)] + rest, i;
      S.ExecAppend(s, [wait, Advance(v)], rest);
    }
  }

  /** The continuation after the step e in which worker w takes up the dispatch. */
  lemma UnsafeLoses(s: State, e: Event, w: nat, names: seq<string>) returns (es: seq<Event>, i: nat)
    requires S.Inv(s) && B.Ok(s, names) && !s.stored.options.concurrent
    requires Dispatcher(s, e) == Some(w) && !SafeToDispatch(s, w)
    ensures i < |s.stored.branches|
    ensures var end := Exec(Step(s, e), es); end.stored.status.Succeeded? && !OkFor(end.log, KeyOf(s.stored, i))
  {
    var s1 := Step(s, e);
    assert s1 == Goto(s, w, AtClock(s.stored));
    if j :| 0 <= j < |s.stored.branches| && KeyOf(s.stored, j) in s.held && !OkFor(s.log, KeyOf(s.stored, j)) {
      i := j;
      es := LosesFromClock(s1, w, KeyOf(s.stored, i));
    } else {
      var v :| v != w && MayClaim(WorkerAt(s, v), s.held);
      assert B.Shape(names, WorkerAt(s, v));
      var claim, j := ReachesClaimFromClock(s1, v);
      i := j;
      assert Ids(WorkerAt(s, v).tx.branches) == names == Ids(s.stored.branches);
      assert names[j] == Ids(s.stored.branches)[j] == Ids(WorkerAt(s, v).tx.branches)[j];
      var rest := LosesFromClock(Exec(s1, claim), w, KeyOf(s.stored, i));
      es := claim + rest;
      S.ExecAppend(s1, claim, rest);
    }
  }

  /** Every unsafe dispatch of a decided in-order Message, by a direct request or by recovery, at any
      point of any run, has a continuation that stores Succeeded although some branch was not delivered. */
  lemma UnsafeDispatchLoses(s: State, run: seq<Event>, e: Event, w: nat) returns (es: seq<Event>, i: nat)
    requires Message.Fresh(s) && !s.stored.options.concurrent && Exec(s, run).stored.revision < MAX_U64
    requires Dispatcher(Exec(s, run), e) == Some(w) && !SafeToDispatch(Exec(s, run), w)
    ensures i < |s.stored.branches|
    ensures var end := Exec(s, run + ([e] + es));
            end.stored.status.Succeeded? && !OkFor(end.log, KeyOf(s.stored, i)) && !AnsweredOk(end.log, Deliver, i)
  {
    var names, mid := Ids(s.stored.branches), Exec(s, run);
    S.RunInv(s, run);
    S.TermsAreFixed(s, run);
    B.ExecOk(s, run, names);
    es, i := UnsafeLoses(mid, e, w, names);
    S.ExecAppend(s, run, [e] + es);
    assert ([e] + es)[1..] == es;
    assert KeyOf(mid.stored, i) == KeyOf(s.stored, i) by {
      assert Ids(mid.stored.branches)[i] == names[i];
    }
    ExecNamed(s, run + ([e] + es), names);
    BarrierIsBranch(Exec(s, run + ([e] + es)).log, s.stored.branches, i);
  }
}
