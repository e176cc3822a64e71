/** The coordinator's persisted vocabulary: global transactions, their branches,
    the barrier keys that guard branch calls, and the observable call log. */
module Core {

  datatype Option<+T> = None | Some(value: T)

  datatype TransactionKind = Saga | Workflow | Message | Xa | Tcc

  datatype TransactionStatus =
    | Submitted | Trying | Prepared | Succeeding | Succeeded | Aborting | Aborted | Failed
  {
    predicate IsTerminal() {
      Succeeded? || Aborted? || Failed?
    }
  }

  datatype BranchKind =
    | SagaAction | SagaCompensate | TccTry | TccConfirm | TccCancel
    | WorkflowAction | MessageAction | XaAction

  datatype BranchStatus = Pending | Running | Compensating | Succeeded | Failed | Skipped

  datatype Branch = Branch(
    id: string,
    kind: BranchKind,
    action: string,
    compensate: Option<string>,
    confirm: Option<string>,
    cancel: Option<string>,
    payload: string,
    status: BranchStatus,
    attempts: nat,
    nextRetry: Option<nat>,
    dependencies: seq<string>)

  datatype Options = Options(concurrent: bool, delay: Option<nat>, retryLimit: Option<nat>)

  datatype Transaction = Transaction(
    gid: string,
    kind: TransactionKind,
    status: TransactionStatus,
    branches: seq<Branch>,
    createdAt: nat,
    updatedAt: nat,
    revision: nat,
    timeout: Option<nat>,
    options: Options)

  /** The operations that a barrier can name. */
  datatype Operation =
    | Action | Compensate | Try | Confirm | Cancel
    | WorkflowStep | WorkflowRollback | Deliver | Commit | Rollback

  /** A barrier of one transaction; the gid is fixed by the context. */
  datatype Key = Key(branch: string, op: Operation)

  datatype Decision = Execute | SkipDuplicate | SkipNullCompensation | SkipCancelledTry

  /** What an outside observer sees: accepted status writes, and branch calls. */
  datatype LogEvent =
    | Stored(status: TransactionStatus)
    | Issued(op: Operation, index: nat, id: string, at: nat)
    | Answered(op: Operation, index: nat, id: string, ok: bool)

  /** A branch call of a worker; a joined call leaves the worker's table. */
  datatype Call = Spawned | Open | Replied(ok: bool)

  const MAX_U64: nat := 0xFFFF_FFFF_FFFF_FFFF
  const MAX_U32: nat := 0xFFFF_FFFF

  /** saturating_add(1) on u64 and u32. */
  function Next64(n: nat): nat { if n < MAX_U64 then n + 1 else n }
  function Next32(n: nat): nat { if n < MAX_U32 then n + 1 else n }

  /** saturating_add and saturating_sub on u64. */
  function AddSat64(a: nat, b: nat): nat { if a + b <= MAX_U64 then a + b else MAX_U64 }
  function SubSat(a: nat, b: nat): nat { if a >= b then a - b else 0 }

  /** The record a store keeps when it accepts tx at time now. */
  function Bumped(tx: Transaction, now: nat): Transaction {
    tx.(revision := Next64(tx.revision), updatedAt := now)
  }

  /** What a coordinator operation never edits. */
  function Definition(b: Branch): Branch {
    b.(status := BranchStatus.Pending, attempts := 0, nextRetry := None)
  }

  predicate SameDefinitions(a: seq<Branch>, b: seq<Branch>) {
    && |a| == |b|
    && forall i :: 0 <= i < |a| ==> Definition(a[i]) == Definition(b[i])
  }

  function Ids(branches: seq<Branch>): (r: seq<string>)
    ensures |r| == |branches|
    ensures forall i :: 0 <= i < |r| ==> r[i] == branches[i].id
  {
    seq(|branches|, i requires 0 <= i < |branches| => branches[i].id)
  }

  /** The barrier rule shared by every store. */
  function Decide(held: set<Key>, key: Key): Decision {
    if key in held then SkipDuplicate
    else if key.op == Try && Key(key.branch, Cancel) in held then SkipCancelledTry
    else if key.op == Cancel && Key(key.branch, Try) !in held then SkipNullCompensation
    else Execute
  }

  /** The barrier set after the decision. */
  function Hold(held: set<Key>, key: Key): set<Key> {
    if Decide(held, key) == Execute || Decide(held, key) == SkipNullCompensation
    then held + {key}
    else held
  }

  predicate AnsweredOk(log: seq<LogEvent>, op: Operation, index: nat) {
    exists p :: 0 <= p < |log| && log[p].Answered? && log[p].op == op && log[p].index == index && log[p].ok
  }

  predicate SuccessOf(e: LogEvent, key: Key) { e.Answered? && e.ok && Key(e.id, e.op) == key }

  /** Some call for this barrier was answered with success. */
  predicate OkFor(log: seq<LogEvent>, key: Key) {
    exists p :: 0 <= p < |log| && SuccessOf(log[p], key)
  }

  lemma OkForAppend(log: seq<LogEvent>, e: LogEvent)
    ensures forall key :: OkFor(log + [e], key) <==> OkFor(log, key) || SuccessOf(e, key)
  {
    var more := log + [e];
    forall key ensures OkFor(more, key) <==> OkFor(log, key) || SuccessOf(e, key) {
      if OkFor(log, key) {
        var p :| 0 <= p < |log| && SuccessOf(log[p], key);
        assert more[p] == log[p];
      }
      if SuccessOf(e, key) { assert more[|log|] == e; }
    }
  }

  /** The indices of a layer: below n, in order. */
  predicate Increasing(layer: seq<nat>, n: nat) {
    && (forall a :: 0 <= a < |layer| ==> layer[a] < n)
    && forall a, b :: 0 <= a < b < |layer| ==> layer[a] < layer[b]
  }

  /** The indices below n that satisfy p, in order. */
  function IndicesWhere(n: nat, p: nat -> bool): (r: seq<nat>)
    ensures forall i: nat :: i in r <==> i < n && p(i)
    ensures forall a, b :: 0 <= a < b < |r| ==> r[a] < r[b]
  {
    if n == 0 then []
    else
      var rest := IndicesWhere(n - 1, p);
      assert forall a :: 0 <= a < |rest| ==> rest[a] in rest;
      if p(n - 1) then rest + [n - 1] else rest
  }
}
