/** The sequential Saga run by one worker at a time: start and abort passes, administration, and a
    stop at any point of a pass. Passes do not overlap, so the store may overwrite blindly. */
module SequentialSaga {
  import opened Core
  import opened Edits

  datatype Request = Start | Abort | ScheduleAbort | ForceStop | ResetRetry(now: nat)

  datatype Then = Return | Forward(k: nat) | EnterAbort

  /** AtAction(tx, k) looks at branch k next; AtCompensation(tx, k) looks at branch k - 1 next. */
  datatype Worker =
    | Idle
    | Persisting(tx: Transaction, next: Then)
    | AtAction(tx: Transaction, k: nat)
    | ActionCall(tx: Transaction, k: nat, call: Call)
    | AtCompensation(tx: Transaction, k: nat)
    | CompensationCall(tx: Transaction, k: nat, call: Call)

  /** `recorded` collects the branches that were ever stored as Succeeded, `lost` those whose success a
      stopped pass had not stored. `hazard` says that a pass stopped after a compensation call while
      the stored status still said that the Saga goes forward. */
  datatype State = State(
    stored: Transaction,
    recorded: set<nat>,
    held: set<Key>,
    log: seq<LogEvent>,
    worker: Worker,
    lost: set<nat>,
    hazard: bool)

  datatype Event =
    | Begin(request: Request)
    | Persist(time: nat)
    | Advance(retryAt: nat)
    | Issue(at: nat)
    | Answer(ok: bool)
    | Crash

  // ---------------------------------------------------------------------
  // Pure parts

  function MaxAttempts(o: Options): nat {
    match o.retryLimit
    case Some(retries) => Next32(retries)
    case None => 1
  }

  predicate GoesForward(status: TransactionStatus) { status.Submitted? || status.Succeeding? }

  /** Branches that an abort pass compensates. */
  predicate Owed(b: Branch) { b.status.Succeeded? || b.status.Compensating? }

  function KeyAt(bs: seq<Branch>, i: nat, op: Operation): Key
    requires i < |bs|
  {
    Key(bs[i].id, op)
  }

  /** The rewrite after branch k used up its attempts. */
  function Exhaust(tx: Transaction, k: nat, retryAt: nat): Transaction
    requires k < |tx.branches|
  {
    var failed := Put(tx, k, BranchStatus.Compensating, Some(retryAt)).branches;
    tx.(status := Aborting, branches := seq(|failed|, i requires 0 <= i < |failed| =>
      if failed[i].status.Succeeded? then failed[i].(status := BranchStatus.Compensating) else failed[i]))
  }

  /** Whether an abort pass over bs, having k branches left, calls some compensation. */
  predicate WouldCall(bs: seq<Branch>, k: nat, held: set<Key>)
    requires k <= |bs|
  {
    k > 0 &&
    var key := KeyAt(bs, k - 1, Compensate);
    if !Owed(bs[k - 1]) then WouldCall(bs, k - 1, held)
    else key !in held && (bs[k - 1].compensate.Some? || WouldCall(bs, k - 1, held + {key}))
  }

  // ---------------------------------------------------------------------
  // Steps

  function BeginRequest(tx: Transaction, request: Request): Worker {
    match request
    case Start =>
      if GoesForward(tx.status) then Persisting(tx.(status := Succeeding), Forward(0)) else Idle
    case Abort =>
      if GoesForward(tx.status) || tx.status.Aborting?
      then AtCompensation(tx.(status := Aborting), |tx.branches|) else Idle
    case ScheduleAbort =>
      if GoesForward(tx.status) || tx.status.Aborting?
      then Persisting(tx.(status := Aborting, branches := ClearRetries(tx.branches)), Return) else Idle
    case ForceStop =>
      if tx.status.IsTerminal() then Idle
      else Persisting(tx.(status := TransactionStatus.Failed, branches := ClearRetries(tx.branches)), Return)
    case ResetRetry(now) =>
      if tx.status.IsTerminal() then Idle
      else Persisting(tx.(branches := MakeDue(tx.branches, now)), Return)
  }

  function Accept(s: State, tx: Transaction, time: nat): State {
    s.(stored := Bumped(tx, time),
       recorded := s.recorded + (set i: nat | i < |tx.branches| && tx.branches[i].status.Succeeded?),
       log := s.log + [Stored(tx.status)])
  }

  function Continue(tx: Transaction, next: Then): Worker {
    match next
    case Return => Idle
    case Forward(k) => AtAction(tx, k)
    case EnterAbort => AtCompensation(tx.(status := Aborting), |tx.branches|)
  }

  function PersistStep(s: State, time: nat): State {
    match s.worker
    case Persisting(tx, next) => Accept(s, tx, time).(worker := Continue(Bumped(tx, time), next))
    case _ => s
  }

  function AdvanceAction(s: State, tx: Transaction, k: nat): State {
    if k >= |tx.branches| then s.(worker := Persisting(tx.(status := TransactionStatus.Succeeded), Return))
    else if tx.branches[k].status.Succeeded? then s.(worker := AtAction(tx, k + 1))
    else if Decide(s.held, KeyAt(tx.branches, k, Action)) == Execute then
      s.(held := s.held + {KeyAt(tx.branches, k, Action)},
         worker := ActionCall(tx.(branches := tx.branches[k := StartRunning(tx.branches[k])]), k, Spawned))
    else s.(worker := Idle)
  }

  function FinishAction(s: State, tx: Transaction, k: nat, ok: bool, retryAt: nat): State
    requires k < |tx.branches|
  {
    if ok then s.(worker := Persisting(Put(tx, k, BranchStatus.Succeeded, None), Forward(k + 1)))
    else if tx.branches[k].attempts < MaxAttempts(tx.options) then
      s.(held := s.held - {KeyAt(tx.branches, k, Action)},
         worker := Persisting(Put(tx, k, BranchStatus.Failed, Some(retryAt)), Return))
    else s.(worker := Persisting(Exhaust(tx, k, retryAt), EnterAbort))
  }

  function WithStatus(tx: Transaction, i: nat, status: BranchStatus): Transaction
    requires i < |tx.branches|
  {
    tx.(branches := tx.branches[i := tx.branches[i].(status := status)])
  }

  function StartCompensating(b: Branch): Branch {
    CountAttempt(b).(status := BranchStatus.Compensating)
  }

  function AdvanceCompensation(s: State, tx: Transaction, k: nat): State
    requires 0 < k <= |tx.branches|
  {
    var i := k - 1;
    var b := tx.branches[i];
    if b.status.Pending? then s.(worker := AtCompensation(WithStatus(tx, i, BranchStatus.Skipped), i))
    else if !Owed(b) then s.(worker := AtCompensation(tx, i))
    else if Decide(s.held, KeyAt(tx.branches, i, Compensate)) != Execute then
      s.(worker := Persisting(WithStatus(tx, i, BranchStatus.Compensating), Return))
    else
      s.(held := s.held + {KeyAt(tx.branches, i, Compensate)},
         worker := if b.compensate.Some?
                   then CompensationCall(tx.(branches := tx.branches[i := StartCompensating(b)]), k, Spawned)
                   else AtCompensation(Put(tx, i, BranchStatus.Skipped, None), i))
  }

  function FinishCompensation(s: State, tx: Transaction, k: nat, ok: bool, retryAt: nat): State
    requires 0 < k <= |tx.branches|
  {
    if ok then s.(worker := AtCompensation(Put(tx, k - 1, BranchStatus.Skipped, None), k - 1))
    else s.(held := s.held - {KeyAt(tx.branches, k - 1, Compensate)},
            worker := Persisting(Put(tx, k - 1, BranchStatus.Compensating, Some(retryAt)), Return))
  }

  function AdvanceStep(s: State, retryAt: nat): State {
    match s.worker
    case AtAction(tx, k) => AdvanceAction(s, tx, k)
    case ActionCall(tx, k, Replied(ok)) => if k < |tx.branches| then FinishAction(s, tx, k, ok, retryAt) else s
    case AtCompensation(tx, k) =>
      if k == 0 then s.(worker := Persisting(tx.(status := Aborted), Return))
      else if k <= |tx.branches| then AdvanceCompensation(s, tx, k)
      else s
    case CompensationCall(tx, k, Replied(ok)) =>
      if 0 < k <= |tx.branches| then FinishCompensation(s, tx, k, ok, retryAt) else s
    case _ => s
  }

  /** The branch and operation that the worker is calling. */
  function Target(wk: Worker): (r: Option<(Operation, nat)>)
    ensures r.Some? ==> (wk.ActionCall? || wk.CompensationCall?) && r.value.1 < |wk.tx.branches|
  {
    if wk.ActionCall? && wk.k < |wk.tx.branches| then Some((Action, wk.k))
    else if wk.CompensationCall? && 0 < wk.k <= |wk.tx.branches| then Some((Compensate, wk.k - 1))
    else None
  }

  function IssueStep(s: State, at: nat): State {
    match Target(s.worker)
    case Some((op, i)) =>
      if s.worker.call != Spawned then s
      else s.(log := s.log + [Issued(op, i, s.worker.tx.branches[i].id, at)], worker := s.worker.(call := Open))
    case None => s
  }

  function AnswerStep(s: State, ok: bool): State {
    match Target(s.worker)
    case Some((op, i)) =>
      if s.worker.call != Open then s
      else s.(log := s.log + [Answered(op, i, s.worker.tx.branches[i].id, ok)],
              worker := s.worker.(call := Replied(ok)))
    case None => s
  }

  predicate CallsCompensation(log: seq<LogEvent>) {
    exists p :: 0 <= p < |log| && !log[p].Stored? && log[p].op == Compensate
  }

  /** The worker knows that action i succeeded and has not stored it. */
  predicate Holding(wk: Worker, i: nat) {
    || (wk.ActionCall? && wk.k == i && wk.call == Replied(true))
    || (wk.Persisting? && wk.next == Forward(i + 1) && i < |wk.tx.branches| && wk.tx.branches[i].status.Succeeded?)
  }

  function CrashStep(s: State): State {
    s.(worker := Idle, lost := s.lost + (set i: nat | i < |s.stored.branches| && Holding(s.worker, i)),
       hazard := s.hazard || (GoesForward(s.stored.status) && CallsCompensation(s.log)))
  }

  function Step(s: State, e: Event): State {
    match e
    case Begin(request) => if s.worker.Idle? then s.(worker := BeginRequest(s.stored, request)) else s
    case Persist(time) => PersistStep(s, time)
    case Advance(retryAt) => AdvanceStep(s, retryAt)
    case Issue(at) => IssueStep(s, at)
    case Answer(ok) => AnswerStep(s, ok)
    case Crash => CrashStep(s)
  }

  function Exec(s: State, es: seq<Event>): State
    decreases |es|
  {
    if es == [] then s else Exec(Step(s, es[0]), es[1..])
  }

  /** A Saga as submitted. */
  ghost predicate Fresh(s: State) {
    && s.stored.status.Submitted?
    && (forall i :: 0 <= i < |s.stored.branches| ==> s.stored.branches[i].status.Pending?)
    && s.recorded == {} && s.held == {} && s.log == [] && s.worker.Idle? && s.lost == {} && !s.hazard
  }
}
