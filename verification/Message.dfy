/** Two-phase Messages over a store with revision-checked writes: prepare, dispatch (in order or all
    at once), abort, administration and recovery, by any number of interleaving workers. */
module Message {
  import opened Core
  import opened Edits

  datatype Request = Prepare | Dispatch | Abort | ScheduleSubmit | ForceStop | ResetRetry(retryAt: nat)

  datatype Then = Return | CheckClock | InvokeAll(layer: seq<nat>)

  datatype Worker =
    | Idle
    | Chosen(request: Request)        // recovery picked an operation from an earlier scan
    | Persisting(tx: Transaction, next: Then)
    | AtClock(tx: Transaction)
    | InOrder(tx: Transaction, k: nat)
    | InOrderCall(tx: Transaction, k: nat, call: Call)
    | Claiming(tx: Transaction, layer: seq<nat>, claimed: nat)
    | Releasing(tx: Transaction, toRelease: seq<nat>)
    | Calling(tx: Transaction, calls: map<nat, Call>, failed: bool)

  /** `skipped` collects the branches that an in-order pass went past because their barrier was held. */
  datatype State = State(
    stored: Transaction,
    held: set<Key>,
    skipped: set<nat>,
    log: seq<LogEvent>,
    now: nat,
    workers: map<nat, Worker>)

  datatype Event =
    | Pass(millis: nat)
    | Begin(worker: nat, request: Request)
    | Recover(worker: nat, at: nat)       // the recovery tick scans the transaction, reading clock `at`
    | Load(worker: nat)
    | Persist(worker: nat, time: nat)
    | Advance(worker: nat)
    | Release(worker: nat)
    | Issue(worker: nat, index: nat)
    | Answer(worker: nat, index: nat, ok: bool)
    | Join(worker: nat, index: nat, retryAt: nat)
    | EndLayer(worker: nat)
    | Crash(worker: nat)

  // ---------------------------------------------------------------------
  // Pure parts

  /** message_dispatch_at_millis: no delay means no wait. */
  function DispatchAt(tx: Transaction): nat {
    match tx.options.delay
    case Some(delay) => AddSat64(tx.createdAt, delay)
    case None => 0
  }

  predicate Due(tx: Transaction, now: nat) { DispatchAt(tx) <= now }

  /** What one recovery scan does with the transaction it read: an operation, or nothing. */
  function RecoveryChoice(tx: Transaction, now: nat): Option<Request> {
    if tx.status.IsTerminal() then None
    else if tx.status.Succeeding? && !Due(tx, now) then None
    else if Expired(tx, now) then
      if tx.status.Succeeding? then Some(Dispatch) else Some(Abort)
    else if !RetriesDue(tx, now) then None
    else if tx.status.Submitted? then Some(Prepare)
    else if tx.status.Succeeding? then Some(Dispatch)
    else None
  }

  function SkipAll(bs: seq<Branch>): seq<Branch> {
    seq(|bs|, i requires 0 <= i < |bs| => bs[i].(status := BranchStatus.Skipped, nextRetry := None))
  }

  function Undelivered(bs: seq<Branch>): seq<nat> {
    IndicesWhere(|bs|, (i: nat) => i < |bs| && !bs[i].status.Succeeded?)
  }

  function KeyOf(tx: Transaction, i: nat): Key
    requires i < |tx.branches|
  {
    Key(tx.branches[i].id, Deliver)
  }

  // ---------------------------------------------------------------------
  // Steps

  function WorkerAt(s: State, w: nat): Worker {
    if w in s.workers then s.workers[w] else Idle
  }

  function Goto(s: State, w: nat, to: Worker): State {
    s.(workers := s.workers[w := to])
  }

  predicate Undecided(tx: Transaction) { tx.status.Submitted? || tx.status.Prepared? }

  /** What a request does with the record it loads. */
  function BeginRequest(tx: Transaction, request: Request): Worker {
    match request
    case Prepare =>
      if tx.status.Submitted? then Persisting(tx.(status := Prepared), Return) else Idle
    case Dispatch =>
      if Undecided(tx) then Persisting(tx.(status := Succeeding), CheckClock)
      else if tx.status.Succeeding? then AtClock(tx)
      else Idle
    case Abort =>
      if Undecided(tx) then Persisting(tx.(status := Aborted, branches := SkipAll(tx.branches)), Return) else Idle
    case ScheduleSubmit =>
      if Undecided(tx) then Persisting(tx.(status := Succeeding), Return) else Idle
    case ForceStop =>
      if tx.status.IsTerminal() then Idle
      else Persisting(tx.(status := TransactionStatus.Failed, branches := ClearRetries(tx.branches)), Return)
    case ResetRetry(retryAt) =>
      if tx.status.IsTerminal() then Idle
      else Persisting(tx.(branches := MakeDue(tx.branches, retryAt)), Return)
  }

  function Accept(s: State, tx: Transaction, time: nat): State {
    s.(stored := Bumped(tx, time), log := s.log + [Stored(tx.status)])
  }

  function Continue(tx: Transaction, next: Then): Worker {
    match next
    case Return => Idle
    case CheckClock => AtClock(tx)
    case InvokeAll(layer) => Calling(tx, map i | i in layer :: Spawned, false)
  }

  function PersistStep(s: State, w: nat, time: nat): State {
    match WorkerAt(s, w)
    case Persisting(tx, next) =>
      if tx.revision != s.stored.revision then Goto(s, w, Idle)
      else Goto(Accept(s, tx, time), w, Continue(tx.(revision := Next64(tx.revision)), next))
    case _ => s
  }

  /** Past the clock check: one branch at a time, or all at once. */
  function StartDelivery(tx: Transaction): Worker {
    if !tx.options.concurrent then InOrder(tx, 0)
    else if Undelivered(tx.branches) == [] then Persisting(tx.(status := TransactionStatus.Succeeded), Return)
    else Claiming(tx, Undelivered(tx.branches), 0)
  }

  function AdvanceStep(s: State, w: nat): State {
    match WorkerAt(s, w)
    case AtClock(tx) => Goto(s, w, if Due(tx, s.now) then StartDelivery(tx) else Idle)
    case InOrder(tx, k) =>
      if k >= |tx.branches| then Goto(s, w, Persisting(tx.(status := TransactionStatus.Succeeded), Return))
      else if tx.branches[k].status.Succeeded? then Goto(s, w, InOrder(tx, k + 1))
      else if Decide(s.held, KeyOf(tx, k)) == Execute then
        Goto(s.(held := s.held + {KeyOf(tx, k)}), w,
             InOrderCall(tx.(branches := tx.branches[k := StartRunning(tx.branches[k])]), k, Spawned))
      else Goto(s.(skipped := s.skipped + {k}), w, InOrder(tx, k + 1))
    case Claiming(tx, layer, k) =>
      if k < |layer| && layer[k] < |tx.branches| then
        if Decide(s.held, KeyOf(tx, layer[k])) == Execute
        then Goto(s.(held := s.held + {KeyOf(tx, layer[k])}), w, Claiming(tx, layer, k + 1))
        else Goto(s, w, Releasing(tx, layer[..k]))
      else if k == |layer| then Goto(s, w, Persisting(MarkRunning(tx, layer), InvokeAll(layer)))
      else s
    case _ => s
  }

  function ReleaseStep(s: State, w: nat): State {
    match WorkerAt(s, w)
    case Releasing(tx, toRelease) =>
      if toRelease == [] then Goto(s, w, Idle)
      else if toRelease[0] < |tx.branches| then
        Goto(s.(held := s.held - {KeyOf(tx, toRelease[0])}), w, Releasing(tx, toRelease[1..]))
      else s
    case _ => s
  }

  function IssueStep(s: State, w: nat, i: nat): State {
    match WorkerAt(s, w)
    case InOrderCall(tx, k, Spawned) =>
      if k == i && i < |tx.branches| then
        Goto(s.(log := s.log + [Issued(Deliver, i, tx.branches[i].id, s.now)]), w, InOrderCall(tx, k, Open))
      else s
    case Calling(tx, calls, failed) =>
      if i in calls && calls[i] == Spawned && i < |tx.branches| then
        Goto(s.(log := s.log + [Issued(Deliver, i, tx.branches[i].id, s.now)]), w,
             Calling(tx, calls[i := Open], failed))
      else s
    case _ => s
  }

  function AnswerStep(s: State, w: nat, i: nat, ok: bool): State {
    match WorkerAt(s, w)
    case InOrderCall(tx, k, Open) =>
      if k == i && i < |tx.branches| then
        Goto(s.(log := s.log + [Answered(Deliver, i, tx.branches[i].id, ok)]), w,
             if ok then InOrder(Put(tx, i, BranchStatus.Succeeded, None), k + 1)
             else InOrderCall(tx, k, Replied(false)))
      else s
    case Calling(tx, calls, failed) =>
      if i in calls && calls[i] == Open && i < |tx.branches| then
        Goto(s.(log := s.log + [Answered(Deliver, i, tx.branches[i].id, ok)]), w,
             Calling(tx, calls[i := Replied(ok)], failed))
      else s
    case _ => s
  }

  function JoinStep(s: State, w: nat, i: nat, retryAt: nat): State {
    match WorkerAt(s, w)
    case InOrderCall(tx, k, Replied(false)) =>
      if k == i && i < |tx.branches| then
        Goto(s.(held := s.held - {KeyOf(tx, i)}), w,
             Persisting(Put(tx, i, BranchStatus.Failed, Some(retryAt)), Return))
      else s
    case Calling(tx, calls, failed) =>
      if i in calls && calls[i] == Replied(true) && i < |tx.branches| then
        Goto(s, w, Calling(Put(tx, i, BranchStatus.Succeeded, None), calls - {i}, failed))
      else if i in calls && calls[i] == Replied(false) && i < |tx.branches| then
        Goto(s.(held := s.held - {KeyOf(tx, i)}), w,
             Calling(Put(tx, i, BranchStatus.Failed, Some(retryAt)), calls - {i}, true))
      else s
    case _ => s
  }

  function EndLayerStep(s: State, w: nat): State {
    match WorkerAt(s, w)
    case Calling(tx, calls, failed) =>
      if calls != map[] then s
      else Goto(s, w, Persisting(tx.(status := if failed then Succeeding else TransactionStatus.Succeeded), Return))
    case _ => s
  }

  function Step(s: State, e: Event): State {
    match e
    case Pass(millis) => s.(now := s.now + millis)
    case Begin(w, request) =>
      if WorkerAt(s, w).Idle? then Goto(s, w, BeginRequest(s.stored, request)) else s
    case Recover(w, at) =>
      if WorkerAt(s, w).Idle? && RecoveryChoice(s.stored, at).Some?
      then Goto(s, w, Chosen(RecoveryChoice(s.stored, at).value)) else s
    case Load(w) =>
      var wk := WorkerAt(s, w);
      if wk.Chosen? then Goto(s, w, BeginRequest(s.stored, wk.request)) else s
    case Persist(w, time) => PersistStep(s, w, time)
    case Advance(w) => AdvanceStep(s, w)
    case Release(w) => ReleaseStep(s, w)
    case Issue(w, i) => IssueStep(s, w, i)
    case Answer(w, i, ok) => AnswerStep(s, w, i, ok)
    case Join(w, i, retryAt) => JoinStep(s, w, i, retryAt)
    case EndLayer(w) => EndLayerStep(s, w)
    case Crash(w) => Goto(s, w, Idle)
  }

  function Exec(s: State, es: seq<Event>): State
    decreases |es|
  {
    if es == [] then s else Exec(Step(s, es[0]), es[1..])
  }

  /** A Message as submitted. */
  ghost predicate Fresh(s: State) {
    && s.stored.status.Submitted?
    && (forall b :: b in s.stored.branches ==> b.status.Pending?)
    && s.held == {} && s.skipped == {} && s.log == [] && s.workers == map[]
  }
}
