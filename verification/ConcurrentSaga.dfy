/** The concurrent (dependency-graph) Saga over a store with revision-checked writes, run by
    any number of workers that interleave freely and can stop at any point. */
module ConcurrentSaga {
  import opened Core
  import opened Edits
  import opened DependencyGraph
  import opened Layers

  datatype Request = Start | Abort | ScheduleAbort | ForceStop | ResetRetry(now: nat)

  /** What a worker does once its write is accepted. */
  datatype Then = Loop | Return | EnterAbort | Invoke(layer: seq<nat>)

  /** A worker's program point and its local copy of the transaction. */
  datatype Worker =
    | Idle
    | Administering(tx: Transaction)
    | Persisting(op: Operation, tx: Transaction, next: Then)
    | AtLoop(op: Operation, tx: Transaction)
    | Claiming(op: Operation, tx: Transaction, layer: seq<nat>, claimed: nat)
    | Releasing(op: Operation, tx: Transaction, toRelease: seq<nat>)
    | Calling(op: Operation, tx: Transaction, calls: map<nat, Call>, retryable: bool, exhausted: bool)

  /** `graph` is the branch list as submitted; `recorded` collects the branches that were ever
      stored as Succeeded or Compensating; `log` is what an observer sees. */
  datatype State = State(
    graph: seq<Branch>,
    stored: Transaction,
    recorded: set<nat>,
    held: set<Key>,
    log: seq<LogEvent>,
    workers: map<nat, Worker>)

  datatype Event =
    | Begin(worker: nat, request: Request)
    | Persist(worker: nat, now: nat)
    | Advance(worker: nat)
    | Claim(worker: nat)
    | Release(worker: nat)
    | Issue(worker: nat, index: nat, at: nat)
    | Answer(worker: nat, index: nat, ok: bool)
    | Join(worker: nat, index: nat, retryAt: nat)
    | EndLayer(worker: nat)
    | Crash(worker: nat)

  // ---------------------------------------------------------------------
  // Edits of the local copy

  function MaxAttempts(o: Options): nat {
    match o.retryLimit
    case Some(retries) => Next32(retries)
    case None => 1
  }

  /** The rewrite of an exhausted forward pass. */
  function Exhaust(tx: Transaction): Transaction {
    tx.(status := Aborting, branches := seq(|tx.branches|, i requires 0 <= i < |tx.branches| =>
      if tx.branches[i].status.Succeeded? then tx.branches[i].(status := BranchStatus.Compensating)
      else tx.branches[i].(status := BranchStatus.Skipped, nextRetry := None)))
  }

  /** The rewrite that opens abort_concurrent_saga. */
  function EnterAborting(tx: Transaction): Transaction {
    tx.(status := Aborting, branches := MarkAllAborting(tx.branches))
  }

  function KeyOf(tx: Transaction, i: nat, op: Operation): Key
    requires i < |tx.branches|
  {
    Key(tx.branches[i].id, op)
  }

  // ---------------------------------------------------------------------
  // Steps. An event that its worker is not ready for changes nothing.

  function WorkerAt(s: State, w: nat): Worker {
    if w in s.workers then s.workers[w] else Idle
  }

  function Goto(s: State, w: nat, to: Worker): State {
    s.(workers := s.workers[w := to])
  }

  function BeginRequest(tx: Transaction, request: Request): Worker {
    match request
    case Start =>
      if tx.status.Submitted? || tx.status.Succeeding?
      then Persisting(Action, tx.(status := Succeeding), Loop) else Idle
    case Abort =>
      if tx.status.Submitted? || tx.status.Succeeding? || tx.status.Aborting?
      then Persisting(Compensate, EnterAborting(tx), Loop) else Idle
    case ScheduleAbort =>
      if tx.status.Submitted? || tx.status.Succeeding? || tx.status.Aborting?
      then Administering(tx.(status := Aborting, branches := ClearRetries(tx.branches))) else Idle
    case ForceStop =>
      if tx.status.IsTerminal() then Idle
      else Administering(tx.(status := TransactionStatus.Failed, branches := ClearRetries(tx.branches)))
    case ResetRetry(now) =>
      if tx.status.IsTerminal() then Idle
      else Administering(tx.(branches := MakeDue(tx.branches, now)))
  }

  /** The store's side of an accepted write. */
  function Accept(s: State, tx: Transaction, now: nat): State {
    s.(stored := Bumped(tx, now),
       recorded := s.recorded + (set i: nat | i < |tx.branches| && Recorded(tx.branches[i])),
       log := s.log + [Stored(tx.status)])
  }

  function Continue(op: Operation, tx: Transaction, next: Then): Worker {
    match next
    case Loop => AtLoop(op, tx)
    case Return => Idle
    case EnterAbort => Persisting(Compensate, EnterAborting(tx), Loop)
    case Invoke(layer) => Calling(op, tx, map i | i in layer :: Spawned, false, false)
  }

  function PersistStep(s: State, w: nat, now: nat): State {
    match WorkerAt(s, w)
    case Persisting(op, tx, next) =>
      if tx.revision != s.stored.revision then Goto(s, w, Idle)
      else Goto(Accept(s, tx, now), w, Continue(op, tx.(revision := Next64(tx.revision)), next))
    case Administering(tx) =>
      if tx.revision != s.stored.revision then Goto(s, w, Idle)
      else Goto(Accept(s, tx, now), w, Idle)
    case _ => s
  }

  function AdvanceLoop(op: Operation, tx: Transaction): Worker {
    if op == Action then
      if AllSucceeded(tx.branches) then Persisting(op, tx.(status := TransactionStatus.Succeeded), Return)
      else if ReadyActions(tx.branches) == [] then Idle
      else Claiming(op, tx, ReadyActions(tx.branches), 0)
    else
      if NoneCompensating(tx.branches) then Persisting(op, tx.(status := Aborted), Return)
      else if ReadyCompensations(tx.branches) == [] then Idle
      else Claiming(op, tx, ReadyCompensations(tx.branches), 0)
  }

  function ClaimStep(s: State, w: nat): State {
    match WorkerAt(s, w)
    case Claiming(op, tx, layer, k) =>
      if k < |layer| && layer[k] < |tx.branches| then
        var i := layer[k];
        var key := KeyOf(tx, i, op);
        if Decide(s.held, key) == Execute then
          var tx' := if op == Compensate
                     then tx.(branches := tx.branches[i := CountAttempt(tx.branches[i])]) else tx;
          Goto(s.(held := s.held + {key}), w, Claiming(op, tx', layer, k + 1))
        else Goto(s, w, Releasing(op, tx, layer[..k]))
      else if k == |layer| then
        Goto(s, w, Persisting(op, if op == Action then MarkRunning(tx, layer) else tx, Invoke(layer)))
      else s
    case _ => s
  }

  function ReleaseStep(s: State, w: nat): State {
    match WorkerAt(s, w)
    case Releasing(op, tx, claimed) =>
      if claimed == [] then Goto(s, w, Idle)
      else if claimed[0] < |tx.branches| then
        Goto(s.(held := s.held - {KeyOf(tx, claimed[0], op)}), w, Releasing(op, tx, claimed[1..]))
      else s
    case _ => s
  }

  predicate CallAt(wk: Worker, i: nat, call: Call) {
    wk.Calling? && i in wk.calls && wk.calls[i] == call && i < |wk.tx.branches|
  }

  /** The branch names the URL to call. */
  predicate HasUrl(op: Operation, b: Branch) { op == Compensate ==> b.compensate.Some? }

  /** A layer in which some compensation has no URL is not joined: its pass fails, which is a stop. */
  predicate Joinable(wk: Worker)
    requires wk.Calling?
  {
    forall i :: i in wk.calls && i < |wk.tx.branches| ==> HasUrl(wk.op, wk.tx.branches[i])
  }

  function IssueStep(s: State, w: nat, i: nat, at: nat): State {
    var wk := WorkerAt(s, w);
    if CallAt(wk, i, Spawned) && HasUrl(wk.op, wk.tx.branches[i]) then
      Goto(s.(log := s.log + [Issued(wk.op, i, wk.tx.branches[i].id, at)]), w,
           wk.(calls := wk.calls[i := Open]))
    else s
  }

  function AnswerStep(s: State, w: nat, i: nat, ok: bool): State {
    var wk := WorkerAt(s, w);
    if CallAt(wk, i, Open) then
      Goto(s.(log := s.log + [Answered(wk.op, i, wk.tx.branches[i].id, ok)]), w,
           wk.(calls := wk.calls[i := Replied(ok)]))
    else s
  }

  function JoinOk(wk: Worker, i: nat): Worker
    requires wk.Calling? && i < |wk.tx.branches|
  {
    var done := if wk.op == Action then BranchStatus.Succeeded else BranchStatus.Skipped;
    wk.(calls := wk.calls - {i}, tx := Put(wk.tx, i, done, None))
  }

  function JoinFailed(wk: Worker, i: nat, retryAt: nat): Worker
    requires wk.Calling? && i < |wk.tx.branches|
  {
    var back := if wk.op == Action then BranchStatus.Failed else BranchStatus.Compensating;
    var again := wk.op == Compensate || wk.tx.branches[i].attempts < MaxAttempts(wk.tx.options);
    wk.(calls := wk.calls - {i},
        tx := Put(wk.tx, i, back, Some(retryAt)),
        retryable := wk.retryable || again,
        exhausted := wk.exhausted || !again)
  }

  function JoinStep(s: State, w: nat, i: nat, retryAt: nat): State {
    var wk := WorkerAt(s, w);
    if CallAt(wk, i, Replied(true)) && Joinable(wk) then Goto(s, w, JoinOk(wk, i))
    else if CallAt(wk, i, Replied(false)) && Joinable(wk) then
      Goto(s.(held := s.held - {KeyOf(wk.tx, i, wk.op)}), w, JoinFailed(wk, i, retryAt))
    else s
  }

  function EndLayerStep(s: State, w: nat): State {
    match WorkerAt(s, w)
    case Calling(op, tx, calls, retryable, exhausted) =>
      if calls != map[] then s
      else if op == Action && exhausted then Goto(s, w, Persisting(op, Exhaust(tx), EnterAbort))
      else Goto(s, w, Persisting(op, tx, if retryable then Return else Loop))
    case _ => s
  }

  function Step(s: State, e: Event): State {
    match e
    case Begin(w, request) =>
      if WorkerAt(s, w).Idle? then Goto(s, w, BeginRequest(s.stored, request)) else s
    case Persist(w, now) => PersistStep(s, w, now)
    case Advance(w) =>
      var wk := WorkerAt(s, w);
      if wk.AtLoop? then Goto(s, w, AdvanceLoop(wk.op, wk.tx)) else s
    case Claim(w) => ClaimStep(s, w)
    case Release(w) => ReleaseStep(s, w)
    case Issue(w, i, at) => IssueStep(s, w, i, at)
    case Answer(w, i, ok) => AnswerStep(s, w, i, ok)
    case Join(w, i, retryAt) => JoinStep(s, w, i, retryAt)
    case EndLayer(w) => EndLayerStep(s, w)
    case Crash(w) => Goto(s, w, Idle)
  }

  function Exec(s: State, es: seq<Event>): State
    decreases |es|
  {
    if es == [] then s else Exec(Step(s, es[0]), es[1..])
  }

  /** A Saga as submitted: accepted by the dependency check, nothing executed. */
  ghost predicate Submitted(s: State) {
    && s.graph == s.stored.branches
    && WellFormed(s.graph)
    && (forall i :: 0 <= i < |s.graph| ==> s.graph[i].status.Pending?)
    && s.stored.status.Submitted?
    && s.recorded == {} && s.held == {} && s.log == [] && s.workers == map[]
  }
}
