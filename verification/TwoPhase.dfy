/** TCC and XA transactions run by one worker at a time: prepare, commit and undo passes, dynamic
    registration, administration and recovery ticks, with a stop at any point of a pass. */
module TwoPhase {
  import opened Core
  import opened Edits

  datatype Request =
    | Prepare          // prepare_tcc, prepare_xa
    | Complete         // confirm_tcc, commit_xa
    | Undo             // cancel_tcc, rollback_xa
    | ScheduleSubmit | ScheduleAbort | ForceStop | ResetRetry(now: nat)

  datatype Pass = Trying | Committing | Undoing

  datatype Worker =
    | Idle
    | Persisting(tx: Transaction)
    | Looping(pass: Pass, tx: Transaction, k: nat)
    | Calling(pass: Pass, tx: Transaction, k: nat, call: Call)

  /** `names` are the branch ids as submitted. `orphaned` collects the barriers held by a pass that
      stopped without an answer, `nulled` the cancel barriers taken without a call because no try
      was held. `scans` are operations that recovery picked and has not yet started. */
  datatype State = State(
    names: seq<string>,
    defaultAttempts: nat,
    stored: Transaction,
    held: set<Key>,
    orphaned: set<Key>,
    nulled: set<Key>,
    log: seq<LogEvent>,
    worker: Worker,
    scans: set<Request>)

  datatype Event =
    | Begin(request: Request)     // a caller's request
    | Scan(now: nat)              // the recovery tick reads the transaction
    | Recover(request: Request)   // and later starts the operation it picked
    | Register(branch: Branch, now: nat)
    | Persist(time: nat)
    | Advance(retryAt: nat)
    | Issue(at: nat)
    | Answer(ok: bool)
    | Crash

  // ---------------------------------------------------------------------
  // Pure parts

  function OpOf(kind: TransactionKind, pass: Pass): Operation {
    match pass
    case Trying => Try
    case Committing => if kind.Tcc? then Confirm else Commit
    case Undoing => if kind.Tcc? then Cancel else Rollback
  }

  function MaxAttempts(s: State, o: Options): nat {
    match o.retryLimit
    case Some(retries) => Next32(retries)
    case None => s.defaultAttempts
  }

  predicate Undecided(status: TransactionStatus) {
    status.Submitted? || status.Trying? || status.Prepared?
  }

  predicate MayUndo(tx: Transaction) {
    tx.status.Submitted? || tx.status.Prepared? || tx.status.Aborting? || (tx.status.Trying? && tx.kind.Tcc?)
  }

  /** The URL that a pass calls, where the branch has one. */
  function CallUrl(kind: TransactionKind, pass: Pass, b: Branch): Option<string> {
    match pass
    case Trying => Some(b.action)
    case Committing => b.confirm
    case Undoing => if kind.Tcc? && b.cancel.None? then b.compensate else b.cancel
  }

  /** The operation that one recovery scan picks. */
  function RecoveryChoice(tx: Transaction, now: nat): Option<Request> {
    if tx.status.IsTerminal() then None
    else if Expired(tx, now) then Some(if tx.kind.Xa? && tx.status.Succeeding? then Complete else Undo)
    else if !RetriesDue(tx, now) then None
    else match tx.status
      case Submitted => Some(Prepare)
      case Trying => if tx.kind.Tcc? then Some(Prepare) else None
      case Succeeding => Some(Complete)
      case Aborting => Some(Undo)
      case _ => None
  }

  // ---------------------------------------------------------------------
  // Steps

  function BeginRequest(tx: Transaction, request: Request): Worker {
    match request
    case Prepare =>
      if tx.kind.Tcc? && (tx.status.Submitted? || tx.status.Trying?)
      then Looping(Pass.Trying, tx.(status := TransactionStatus.Trying), 0)
      else if tx.kind.Xa? && tx.status.Submitted? then Persisting(tx.(status := Prepared))
      else Idle
    case Complete =>
      if tx.status.Prepared? || tx.status.Succeeding?
      then Looping(Committing, tx.(status := Succeeding), 0) else Idle
    case Undo =>
      if MayUndo(tx) then Looping(Undoing, tx.(status := Aborting), 0) else Idle
    case ScheduleSubmit =>
      if tx.status.Prepared? then Persisting(tx.(status := Succeeding)) else Idle
    case ScheduleAbort =>
      if MayUndo(tx) then Persisting(tx.(status := Aborting, branches := ClearRetries(tx.branches))) else Idle
    case ForceStop =>
      if tx.status.IsTerminal() then Idle
      else Persisting(tx.(status := TransactionStatus.Failed, branches := ClearRetries(tx.branches)))
    case ResetRetry(now) =>
      if tx.status.IsTerminal() then Idle else Persisting(tx.(branches := MakeDue(tx.branches, now)))
  }

  /** A refused registration changes nothing. */
  function Registered(tx: Transaction, b: Branch, now: nat): Transaction {
    match AppendBranch(tx, b, now)
    case Some(after) => after
    case None => tx
  }

  function PersistStep(s: State, time: nat): State {
    match s.worker
    case Persisting(tx) =>
      s.(stored := Bumped(tx, time), log := s.log + [Stored(tx.status)], worker := Idle)
    case _ => s
  }

  /** The barrier of branch k in a pass. */
  function KeyAt(pass: Pass, tx: Transaction, k: nat): Key
    requires k < |tx.branches|
  {
    Key(tx.branches[k].id, OpOf(tx.kind, pass))
  }

  function Finished(pass: Pass): TransactionStatus {
    match pass
    case Trying => Prepared
    case Committing => TransactionStatus.Succeeded
    case Undoing => Aborted
  }

  /** Whether the pass calls the branch after this barrier decision. */
  predicate Calls(b: Branch, decision: Decision) {
    decision == Execute || (decision == SkipNullCompensation && b.action == "")
  }

  /** The barrier is taken; without a URL to call, the pass fails there. */
  function Claim(s: State, pass: Pass, tx: Transaction, k: nat): State
    requires k < |tx.branches|
  {
    var key, b := KeyAt(pass, tx, k), tx.branches[k];
    if CallUrl(tx.kind, pass, b).None? then
      s.(held := s.held + {key}, orphaned := s.orphaned + {key}, worker := Idle)
    else
      var b' := if pass.Trying? then StartRunning(b) else CountAttempt(b);
      s.(held := s.held + {key}, worker := Calling(pass, tx.(branches := tx.branches[k := b']), k, Spawned))
  }

  function AdvanceLoop(s: State, pass: Pass, tx: Transaction, k: nat): State
    requires k < |tx.branches|
  {
    var key := KeyAt(pass, tx, k);
    if pass.Trying? && tx.branches[k].status.Succeeded? then s.(worker := Looping(pass, tx, k + 1))
    else if Calls(tx.branches[k], Decide(s.held, key)) then Claim(s, pass, tx, k)
    else match Decide(s.held, key)
      case SkipCancelledTry =>
        s.(worker := Persisting(Put(tx, k, BranchStatus.Skipped, None).(status := Aborting)))
      case SkipNullCompensation =>
        s.(held := s.held + {key}, nulled := s.nulled + {key},
           worker := Looping(pass, Put(tx, k, BranchStatus.Skipped, None), k + 1))
      case _ => s.(worker := Looping(pass, tx, k + 1))
  }

  function FinishCall(s: State, pass: Pass, tx: Transaction, k: nat, ok: bool, retryAt: nat): State
    requires k < |tx.branches|
  {
    if ok then
      var done := if pass.Undoing? then BranchStatus.Skipped else BranchStatus.Succeeded;
      s.(worker := Looping(pass, Put(tx, k, done, None), k + 1))
    else
      var failed := Put(tx, k, BranchStatus.Failed, Some(retryAt));
      var exhausted := pass.Trying? && tx.branches[k].attempts >= MaxAttempts(s, tx.options);
      s.(held := s.held - {KeyAt(pass, tx, k)},
         worker := Persisting(if exhausted then failed.(status := Aborting) else failed))
  }

  function AdvanceStep(s: State, retryAt: nat): State {
    match s.worker
    case Looping(pass, tx, k) =>
      if k < |tx.branches| then AdvanceLoop(s, pass, tx, k)
      else s.(worker := Persisting(tx.(status := Finished(pass))))
    case Calling(pass, tx, k, Replied(ok)) =>
      if k < |tx.branches| then FinishCall(s, pass, tx, k, ok, retryAt) else s
    case _ => s
  }

  predicate CallAt(wk: Worker, call: Call) {
    wk.Calling? && wk.call == call && wk.k < |wk.tx.branches|
  }

  function CurrentKey(wk: Worker): Key
    requires wk.Calling? && wk.k < |wk.tx.branches|
  {
    KeyAt(wk.pass, wk.tx, wk.k)
  }

  function IssueStep(s: State, at: nat): State {
    if CallAt(s.worker, Spawned) then
      var key := CurrentKey(s.worker);
      s.(log := s.log + [Issued(key.op, s.worker.k, key.branch, at)], worker := s.worker.(call := Open))
    else s
  }

  function AnswerStep(s: State, ok: bool): State {
    if CallAt(s.worker, Open) then
      var key := CurrentKey(s.worker);
      s.(log := s.log + [Answered(key.op, s.worker.k, key.branch, ok)], worker := s.worker.(call := Replied(ok)))
    else s
  }

  function CrashStep(s: State): State {
    var lost := if s.worker.Calling? && s.worker.k < |s.worker.tx.branches| && s.worker.call != Replied(true)
                then {CurrentKey(s.worker)} else {};
    s.(worker := Idle, orphaned := s.orphaned + lost)
  }

  function Step(s: State, e: Event): State {
    match e
    case Begin(request) => if s.worker.Idle? then s.(worker := BeginRequest(s.stored, request)) else s
    case Scan(now) =>
      if RecoveryChoice(s.stored, now).Some? then s.(scans := s.scans + {RecoveryChoice(s.stored, now).value}) else s
    case Recover(request) =>
      if s.worker.Idle? && request in s.scans then s.(worker := BeginRequest(s.stored, request)) else s
    case Register(b, now) => if s.worker.Idle? then s.(stored := Registered(s.stored, b, now)) else s
    case Persist(time) => PersistStep(s, time)
    case Advance(retryAt) => AdvanceStep(s, retryAt)
    case Issue(at) => IssueStep(s, at)
    case Answer(ok) => AnswerStep(s, ok)
    case Crash => CrashStep(s)
  }

  function Exec(s: State, es: seq<Event>): State
    decreases |es|
  {
    if es == [] then s else Exec(Step(s, es[0]), es[1..])
  }

  /** A TCC or XA transaction as submitted. */
  ghost predicate Fresh(s: State) {
    && (s.stored.kind.Tcc? || s.stored.kind.Xa?)
    && s.stored.status.Submitted? && s.names == Ids(s.stored.branches)
    && (forall i :: 0 <= i < |s.stored.branches| ==> s.stored.branches[i].status.Pending?)
    && s.held == {} && s.orphaned == {} && s.nulled == {} && s.log == [] && s.worker.Idle? && s.scans == {}
  }
}
