/** At-most-once delivery of Messages: over every interleaving of workers with stops at any point, a
    branch's barrier has one holder, and no branch is called again after a successful delivery. */
module MessageBarriers {
  import opened Core
  import opened Edits
  import opened Message

  /** The worker holds the barrier of branch i for a call not yet answered with success. */
  predicate Holds(wk: Worker, i: nat) {
    match wk
    case InOrderCall(_, k, call) => k == i && call != Replied(true)
    case Claiming(_, layer, k) => k <= |layer| && i in layer[..k]
    case Persisting(_, next) => next.InvokeAll? && i in next.layer
    case Releasing(_, toRelease) => i in toRelease
    case Calling(_, calls, _) => i in calls && calls[i] != Replied(true)
    case _ => false
  }

  predicate SameNames(names: seq<string>, tx: Transaction) { Ids(tx.branches) == names }

  predicate Shape(names: seq<string>, wk: Worker) {
    (!wk.Idle? && !wk.Chosen? ==> SameNames(names, wk.tx)) &&
    match wk
    case InOrderCall(_, k, _) => k < |names|
    case Claiming(_, layer, k) => Increasing(layer, |names|) && k <= |layer|
    case Persisting(_, next) => next.InvokeAll? ==> Increasing(next.layer, |names|)
    case Releasing(_, toRelease) => Increasing(toRelease, |names|)
    case Calling(_, calls, _) => forall i :: i in calls ==> i < |names|
    case _ => true
  }

  ghost predicate Shaped(s: State, names: seq<string>) {
    SameNames(names, s.stored) && forall w :: w in s.workers ==> Shape(names, s.workers[w])
  }

  function KeyFor(names: seq<string>, i: nat): Key
    requires i < |names|
  {
    Key(names[i], Deliver)
  }

  ghost predicate HeldFresh(s: State, names: seq<string>, w: nat, i: nat) {
    Holds(WorkerAt(s, w), i) ==>
      i < |names| && KeyFor(names, i) in s.held && !OkFor(s.log, KeyFor(names, i))
  }

  ghost predicate OneHolder(s: State, names: seq<string>, v: nat, i: nat, w: nat, j: nat) {
    Holds(WorkerAt(s, v), i) && Holds(WorkerAt(s, w), j) && i < |names| && j < |names| && names[i] == names[j] ==>
      v == w && i == j
  }

  /** No call is made or answered after a success for the same barrier. */
  predicate Once(e: LogEvent, before: seq<LogEvent>) {
    !e.Stored? ==> !OkFor(before, Key(e.id, e.op))
  }

  ghost predicate LogOnce(log: seq<LogEvent>) {
    forall p :: 0 <= p < |log| ==> Once(log[p], log[..p])
  }

  ghost predicate Exclusive(s: State, names: seq<string>) {
    && (forall w, i :: HeldFresh(s, names, w, i))
    && (forall v, i, w, j :: OneHolder(s, names, v, i, w, j))
    && (forall key :: OkFor(s.log, key) ==> key in s.held)
    && LogOnce(s.log)
  }

  // ---------------------------------------------------------------------
  // Kinds of step

  ghost predicate OnlyMoves(s: State, s': State, w: nat) {
    forall v :: v != w ==> WorkerAt(s', v) == WorkerAt(s, v)
  }

  /** Worker w gives up nothing but claims; the log may show a status. */
  lemma Keeps(s: State, s': State, w: nat, names: seq<string>)
    requires Exclusive(s, names) && OnlyMoves(s, s', w) && s'.held == s.held
    requires forall i :: Holds(WorkerAt(s', w), i) ==> Holds(WorkerAt(s, w), i)
    requires forall key :: OkFor(s'.log, key) <==> OkFor(s.log, key)
    requires LogOnce(s'.log)
    ensures Exclusive(s', names)
  {
    forall v, i ensures HeldFresh(s', names, v, i) {
      assert HeldFresh(s, names, v, i);
    }
    forall v, i, u, j ensures OneHolder(s', names, v, i, u, j) {
      assert OneHolder(s, names, v, i, u, j);
    }
  }

  lemma Claims(s: State, s': State, w: nat, names: seq<string>, k: nat)
    requires Exclusive(s, names) && OnlyMoves(s, s', w) && s'.log == s.log
    requires k < |names| && KeyFor(names, k) !in s.held && s'.held == s.held + {KeyFor(names, k)}
    requires forall i :: Holds(WorkerAt(s', w), i) ==> Holds(WorkerAt(s, w), i) || i == k
    ensures Exclusive(s', names)
  {
    forall v, i ensures HeldFresh(s', names, v, i) {
      assert HeldFresh(s, names, v, i);
    }
    forall v, i, u, j ensures OneHolder(s', names, v, i, u, j) {
      assert HeldFresh(s, names, v, i) && HeldFresh(s, names, u, j);
      assert OneHolder(s, names, v, i, u, j);
    }
  }

  lemma Releases(s: State, s': State, w: nat, names: seq<string>, k: nat)
    requires Exclusive(s, names) && OnlyMoves(s, s', w) && s'.log == s.log
    requires k < |names| && Holds(WorkerAt(s, w), k) && s'.held == s.held - {KeyFor(names, k)}
    requires forall i :: Holds(WorkerAt(s', w), i) ==> Holds(WorkerAt(s, w), i) && i != k
    ensures Exclusive(s', names)
  {
    assert HeldFresh(s, names, w, k);
    forall v, i ensures HeldFresh(s', names, v, i) {
      assert HeldFresh(s, names, v, i);
      assert OneHolder(s, names, v, i, w, k);
    }
    forall v, i, u, j ensures OneHolder(s', names, v, i, u, j) {
      assert OneHolder(s, names, v, i, u, j);
    }
  }

  lemma Succeeds(s: State, s': State, w: nat, names: seq<string>, k: nat, e: LogEvent)
    requires Exclusive(s, names) && OnlyMoves(s, s', w) && s'.held == s.held
    requires k < |names| && Holds(WorkerAt(s, w), k)
    requires e.Answered? && e.ok && Key(e.id, e.op) == KeyFor(names, k) && s'.log == s.log + [e]
    requires forall i :: Holds(WorkerAt(s', w), i) ==> Holds(WorkerAt(s, w), i) && i != k
    ensures Exclusive(s', names)
  {
    assert HeldFresh(s, names, w, k);
    OkForAppend(s.log, e);
    forall v, i ensures HeldFresh(s', names, v, i) {
      assert HeldFresh(s, names, v, i);
      assert OneHolder(s, names, v, i, w, k);
    }
    forall v, i, u, j ensures OneHolder(s', names, v, i, u, j) {
      assert OneHolder(s, names, v, i, u, j);
    }
  }

  lemma Silent(s: State, s': State, w: nat, names: seq<string>, e: LogEvent)
    requires Exclusive(s, names) && OnlyMoves(s, s', w) && s'.held == s.held
    requires s'.log == s.log + [e] && !(e.Answered? && e.ok)
    requires e.Stored? || !OkFor(s.log, Key(e.id, e.op))
    requires forall i :: Holds(WorkerAt(s', w), i) ==> Holds(WorkerAt(s, w), i)
    ensures Exclusive(s', names)
  {
    OkForAppend(s.log, e);
    Keeps(s, s', w, names);
  }

  // ---------------------------------------------------------------------
  // Steps

  ghost predicate Ok(s: State, names: seq<string>) { Shaped(s, names) && Exclusive(s, names) }

  lemma UndeliveredIncreasing(bs: seq<Branch>)
    ensures Increasing(Undelivered(bs), |bs|)
  {
    var layer := Undelivered(bs);
    forall a | 0 <= a < |layer| ensures layer[a] < |bs| { assert layer[a] in layer; }
  }

  lemma BeginOk(s: State, w: nat, request: Request, names: seq<string>)
    requires Ok(s, names)
    requires WorkerAt(s, w).Idle? || WorkerAt(s, w).Chosen?
    ensures Ok(Goto(s, w, BeginRequest(s.stored, request)), names)
  {
    var wk := BeginRequest(s.stored, request);
    assert Shape(names, wk);
    Keeps(s, Goto(s, w, wk), w, names);
  }

  lemma PersistOk(s: State, w: nat, time: nat, names: seq<string>)
    requires Ok(s, names)
    ensures Ok(PersistStep(s, w, time), names)
  {
    var wk, s' := WorkerAt(s, w), PersistStep(s, w, time);
    if wk.Persisting? {
      assert Shape(names, wk);
      if wk.tx.revision != s.stored.revision {
        Keeps(s, s', w, names);
      } else {
        assert Shape(names, s'.workers[w]);
        Silent(s, s', w, names, Stored(wk.tx.status));
      }
    }
  }

  lemma ClockOk(s: State, w: nat, names: seq<string>)
    requires Ok(s, names) && WorkerAt(s, w).AtClock?
    ensures Ok(AdvanceStep(s, w), names)
  {
    var wk, s' := WorkerAt(s, w), AdvanceStep(s, w);
    assert Shape(names, wk);
    UndeliveredIncreasing(wk.tx.branches);
    assert |wk.tx.branches| == |names| by { assert |Ids(wk.tx.branches)| == |names|; }
    assert Shape(names, s'.workers[w]);
    Keeps(s, s', w, names);
  }

  lemma InOrderOk(s: State, w: nat, names: seq<string>)
    requires Ok(s, names) && WorkerAt(s, w).InOrder?
    ensures Ok(AdvanceStep(s, w), names)
  {
    var wk, s' := WorkerAt(s, w), AdvanceStep(s, w);
    assert Shape(names, wk);
    var tx, k := wk.tx, wk.k;
    assert |tx.branches| == |names| by { assert |Ids(tx.branches)| == |names|; }
    assert Shape(names, s'.workers[w]);
    if s'.workers[w].InOrderCall? {
      Claims(s, s', w, names, k);
    } else {
      Keeps(s, s', w, names);
    }
  }

  lemma ClaimingOk(s: State, w: nat, names: seq<string>)
    requires Ok(s, names) && WorkerAt(s, w).Claiming?
    ensures Ok(AdvanceStep(s, w), names)
  {
    var wk, s' := WorkerAt(s, w), AdvanceStep(s, w);
    assert Shape(names, wk);
    var Claiming(tx, layer, k) := wk;
    if k < |layer| {
      assert layer[..k + 1] == layer[..k] + [layer[k]];
      assert Shape(names, s'.workers[w]);
      if Decide(s.held, KeyOf(tx, layer[k])) == Execute {
        Claims(s, s', w, names, layer[k]);
      } else {
        Keeps(s, s', w, names);
      }
    } else {
      assert layer[..k] == layer;
      assert Shape(names, s'.workers[w]);
      Keeps(s, s', w, names);
    }
  }

  lemma ReleaseOk(s: State, w: nat, names: seq<string>)
    requires Ok(s, names)
    ensures Ok(ReleaseStep(s, w), names)
  {
    var wk, s' := WorkerAt(s, w), ReleaseStep(s, w);
    if wk.Releasing? {
      assert Shape(names, wk);
      if wk.toRelease == [] {
        Keeps(s, s', w, names);
      } else {
        var i := wk.toRelease[0];
        assert Shape(names, s'.workers[w]);
        assert i !in wk.toRelease[1..];
        Releases(s, s', w, names, i);
      }
    }
  }

  lemma IssueOk(s: State, w: nat, i: nat, names: seq<string>)
    requires Ok(s, names)
    ensures Ok(IssueStep(s, w, i), names)
  {
    var wk, s' := WorkerAt(s, w), IssueStep(s, w, i);
    if s' != s {
      assert Shape(names, wk);
      assert HeldFresh(s, names, w, i);
      assert Shape(names, s'.workers[w]);
      Silent(s, s', w, names, s'.log[|s.log|]);
    }
  }

  lemma AnswerOk(s: State, w: nat, i: nat, ok: bool, names: seq<string>)
    requires Ok(s, names)
    ensures Ok(AnswerStep(s, w, i, ok), names)
  {
    var wk, s' := WorkerAt(s, w), AnswerStep(s, w, i, ok);
    if s' != s {
      assert Shape(names, wk);
      assert HeldFresh(s, names, w, i);
      assert Shape(names, s'.workers[w]);
      if ok { Succeeds(s, s', w, names, i, s'.log[|s.log|]); } else { Silent(s, s', w, names, s'.log[|s.log|]); }
    }
  }

  lemma JoinOk(s: State, w: nat, i: nat, retryAt: nat, names: seq<string>)
    requires Ok(s, names)
    ensures Ok(JoinStep(s, w, i, retryAt), names)
  {
    var wk, s' := WorkerAt(s, w), JoinStep(s, w, i, retryAt);
    if s' != s {
      assert Shape(names, wk);
      assert Shape(names, s'.workers[w]);
      if wk.Calling? && wk.calls[i] == Replied(true) {
        Keeps(s, s', w, names);
      } else {
        Releases(s, s', w, names, i);
      }
    }
  }

  lemma EndLayerOk(s: State, w: nat, names: seq<string>)
    requires Ok(s, names)
    ensures Ok(EndLayerStep(s, w), names)
  {
    var wk, s' := WorkerAt(s, w), EndLayerStep(s, w);
    if s' != s {
      assert Shape(names, wk);
      Keeps(s, s', w, names);
    }
  }

  lemma StepOk(s: State, e: Event, names: seq<string>)
    requires Ok(s, names)
    ensures Ok(Step(s, e), names)
  {
    var s' := Step(s, e);
    match e
    case Pass(_) => Keeps(s, s', 0, names);
    case Begin(w, request) => if WorkerAt(s, w).Idle? { BeginOk(s, w, request, names); }
    case Recover(w, _) => if s' != s { Keeps(s, s', w, names); }
    case Load(w) => if WorkerAt(s, w).Chosen? { BeginOk(s, w, WorkerAt(s, w).request, names); }
    case Persist(w, time) => PersistOk(s, w, time, names);
    case Advance(w) =>
      if WorkerAt(s, w).AtClock? { ClockOk(s, w, names); }
      if WorkerAt(s, w).InOrder? { InOrderOk(s, w, names); }
      if WorkerAt(s, w).Claiming? { ClaimingOk(s, w, names); }
    case Release(w) => ReleaseOk(s, w, names);
    case Issue(w, i) => IssueOk(s, w, i, names);
    case Answer(w, i, ok) => AnswerOk(s, w, i, ok, names);
    case Join(w, i, retryAt) => JoinOk(s, w, i, retryAt, names);
    case EndLayer(w) => EndLayerOk(s, w, names);
    case Crash(w) => Keeps(s, s', w, names);
  }

  lemma {:induction false} ExecOk(s: State, es: seq<Event>, names: seq<string>)
    requires Ok(s, names)
    ensures Ok(Exec(s, es), names)
    decreases |es|
  {
    if es != [] {
      StepOk(s, es[0], names);
      ExecOk(Step(s, es[0]), es[1..], names);
    }
  }

  /** After a success, no call for the same barrier. */
  predicate NotAgain(success: LogEvent, later: LogEvent) {
    success.Answered? && success.ok && !later.Stored? ==> Key(later.id, later.op) != Key(success.id, success.op)
  }

  /** At most once: after a delivery was answered with success, no worker calls that branch again, and
      no two workers hold its barrier at the same time. */
  lemma DeliversOnce(s: State, es: seq<Event>)
    requires Message.Fresh(s)
    ensures forall p, q :: 0 <= p < q < |Exec(s, es).log| ==> NotAgain(Exec(s, es).log[p], Exec(s, es).log[q])
    ensures forall v, i, w, j :: OneHolder(Exec(s, es), Ids(s.stored.branches), v, i, w, j)
  {
    var names := Ids(s.stored.branches);
    ExecOk(s, es, names);
    var log := Exec(s, es).log;
    forall p, q | 0 <= p < q < |log| ensures NotAgain(log[p], log[q]) {
      assert Once(log[q], log[..q]);
      if log[p].Answered? && log[p].ok { assert SuccessOf(log[..q][p], Key(log[p].id, log[p].op)); }
    }
  }
}
