/** Retention: which transactions a purge removes, in which order, and that removing one leaves none
    of its barriers behind. */
module Retention {
  import opened Core
  import opened Ordering

  datatype Policy = Policy(dataExpire: nat, finishedExpire: nat, batch: nat)

  datatype Report = Report(scanned: nat, eligible: nat, deleted: nat, conflicts: nat)

  predicate ValidPolicy(p: Policy) {
    0 < p.finishedExpire <= p.dataExpire && 1 <= p.batch <= 10_000
  }

  /** transaction_expired */
  predicate Expired(tx: Transaction, now: nat, p: Policy) {
    tx.updatedAt <= SubSat(now, if tx.status.IsTerminal() then p.finishedExpire else p.dataExpire)
  }

  function Expires(now: nat, p: Policy): Transaction -> bool { (tx: Transaction) => Expired(tx, now, p) }

  predicate Older(a: Transaction, b: Transaction) {
    a.updatedAt < b.updatedAt || (a.updatedAt == b.updatedAt && TextLeq(a.gid, b.gid))
  }

  lemma OlderIsPreorder()
    ensures TotalPreorder(Older)
  {
    forall a, b ensures Older(a, b) || Older(b, a) { TextTotal(a.gid, b.gid); }
    forall a, b, c | Older(a, b) && Older(b, c) ensures Older(a, c) {
      if TextLeq(a.gid, b.gid) && TextLeq(b.gid, c.gid) { TextTransitive(a.gid, b.gid, c.gid); }
    }
  }

  function Take<T>(s: seq<T>, n: nat): seq<T> { if |s| <= n then s else s[..n] }

  /** The transactions one purge tries to delete, in this order. */
  function Targets(listed: seq<Transaction>, now: nat, p: Policy): seq<Transaction> {
    Take(Filter(Sort(listed, Older), Expires(now, p)), p.batch)
  }

  /** They are the oldest expired ones, oldest first: every expired transaction that is passed over
      is no older than any of them, and is passed over only when the batch is full. */
  lemma TargetsAreOldest(listed: seq<Transaction>, now: nat, p: Policy)
    ensures var targets := Targets(listed, now, p);
            && |targets| <= p.batch && Sorted(targets, Older)
            && (forall tx :: tx in targets ==> tx in listed && Expired(tx, now, p))
            && forall tx :: tx in listed && Expired(tx, now, p) && tx !in targets ==>
                 |targets| == p.batch && forall t :: t in targets ==> Older(t, tx)
    ensures NoDuplicates(listed) ==> NoDuplicates(Targets(listed, now, p))
  {
    OlderIsPreorder();
    var sorted := Sort(listed, Older);
    SortSorted(listed, Older);
    SortKeeps(listed, Older);
    var expired := Filter(sorted, Expires(now, p));
    FilterSorted(sorted, Expires(now, p), Older);
    if NoDuplicates(listed) { FilterNoDuplicates(sorted, Expires(now, p)); }
  }

  /** The last change lies at least one period back. A record whose time stamp is 0 always counts as old,
      because the subtraction from the clock saturates. */
  predicate PastPeriod(tx: Transaction, now: nat, period: nat) {
    tx.updatedAt + period <= now || tx.updatedAt == 0
  }

  /** Finished records are kept for finishedExpire, all others for dataExpire. */
  predicate PastItsPeriod(tx: Transaction, now: nat, p: Policy) {
    match tx.status
    case Succeeded | Aborted | Failed => PastPeriod(tx, now, p.finishedExpire)
    case Submitted | Trying | Prepared | Succeeding | Aborting => PastPeriod(tx, now, p.dataExpire)
  }

  /** Which listed transactions are targets: those past their period, oldest first and then by gid, but for
      the younger ones that a full batch leaves out. */
  lemma TargetsByAge(listed: seq<Transaction>, now: nat, p: Policy)
    ensures var targets := Targets(listed, now, p);
            && (forall tx :: tx in targets ==> tx in listed && PastItsPeriod(tx, now, p))
            && (forall i, j :: 0 <= i < j < |targets| ==>
                  targets[i].updatedAt < targets[j].updatedAt
                  || (targets[i].updatedAt == targets[j].updatedAt && TextLeq(targets[i].gid, targets[j].gid)))
            && forall tx :: tx in listed && PastItsPeriod(tx, now, p) && tx !in targets ==>
                 |targets| == p.batch && forall t :: t in targets ==> t.updatedAt <= tx.updatedAt
  {
    TargetsAreOldest(listed, now, p);
    forall tx: Transaction ensures Expired(tx, now, p) <==> PastItsPeriod(tx, now, p) { }
  }

  // ---------------------------------------------------------------------
  // Barriers of one transaction

  /** The operations that the coordinator runs for a transaction of this kind. */
  function OpsOfKind(kind: TransactionKind): set<Operation> {
    match kind
    case Saga => {Action, Compensate}
    case Workflow => {WorkflowStep, WorkflowRollback}
    case Message => {Deliver}
    case Xa => {Commit, Rollback}
    case Tcc => {Try, Confirm, Cancel}
  }

  /** The operations whose barrier fields are derived from a branch, by the branch's own kind. */
  function OpsOfBranch(kind: BranchKind): set<Operation> {
    match kind
    case SagaAction | SagaCompensate => {Action, Compensate}
    case TccTry | TccConfirm | TccCancel => {Try, Confirm, Cancel}
    case WorkflowAction => {WorkflowStep, WorkflowRollback}
    case MessageAction => {Deliver}
    case XaAction => {Commit, Rollback}
  }

  function OpList(kind: BranchKind): (r: seq<Operation>)
    ensures forall op :: op in r <==> op in OpsOfBranch(kind)
  {
    match kind
    case SagaAction | SagaCompensate => [Action, Compensate]
    case TccTry | TccConfirm | TccCancel => [Try, Confirm, Cancel]
    case WorkflowAction => [WorkflowStep, WorkflowRollback]
    case MessageAction => [Deliver]
    case XaAction => [Commit, Rollback]
  }

  /** A barrier that some operation on the transaction can take. */
  predicate Possible(tx: Transaction, key: Key) {
    key.op in OpsOfKind(tx.kind) && exists i :: 0 <= i < |tx.branches| && tx.branches[i].id == key.branch
  }

  predicate Names(b: Branch, key: Key) { b.id == key.branch && key.op in OpsOfBranch(b.kind) }

  predicate DerivedFrom(branches: seq<Branch>, key: Key) {
    exists i :: 0 <= i < |branches| && Names(branches[i], key)
  }

  /** A barrier in the list derived from the transaction. */
  predicate Derived(tx: Transaction, key: Key) { DerivedFrom(tx.branches, key) }

  /** transaction_barrier_fields */
  method DerivedFields(tx: Transaction) returns (fields: seq<Key>)
    ensures forall key :: key in fields <==> Derived(tx, key)
  {
    fields := [];
    for i := 0 to |tx.branches|
      invariant forall key :: key in fields <==> DerivedFrom(tx.branches[..i], key)
    {
      var b := tx.branches[i];
      var ops := OpList(b.kind);
      ghost var before := fields;
      for j := 0 to |ops|
        invariant forall key :: key in fields <==> key in before || (key.branch == b.id && key.op in ops[..j])
      {
        assert ops[..j + 1] == ops[..j] + [ops[j]];
        fields := fields + [Key(b.id, ops[j])];
      }
      assert ops[..|ops|] == ops;
      forall key ensures key in fields <==> DerivedFrom(tx.branches[..i + 1], key) {
        DerivedNext(tx.branches, i, key);
      }
    }
    assert tx.branches[..|tx.branches|] == tx.branches;
  }

  lemma DerivedNext(branches: seq<Branch>, i: nat, key: Key)
    requires i < |branches|
    ensures DerivedFrom(branches[..i + 1], key) <==> DerivedFrom(branches[..i], key) || Names(branches[i], key)
  {
    var more := branches[..i + 1];
    if DerivedFrom(branches[..i], key) {
      var k :| 0 <= k < i && Names(branches[..i][k], key);
      assert more[k] == branches[k];
    }
    if DerivedFrom(more, key) {
      var k :| 0 <= k < |more| && Names(more[k], key);
      assert k < i ==> branches[..i][k] == more[k];
    }
    assert more[i] == branches[i];
  }

  /** A branch of the kind that belongs to the transaction's kind. */
  predicate WellKinded(kind: TransactionKind, b: Branch) {
    OpsOfBranch(b.kind) == OpsOfKind(kind)
  }

  predicate RightKind(tx: Transaction, id: string) {
    exists i :: 0 <= i < |tx.branches| && tx.branches[i].id == id && WellKinded(tx.kind, tx.branches[i])
  }

  predicate Covered(tx: Transaction) {
    forall i :: 0 <= i < |tx.branches| ==> RightKind(tx, tx.branches[i].id)
  }

  lemma EveryKindHasOne(kind: TransactionKind) returns (op: Operation)
    ensures op in OpsOfKind(kind)
  {
    match kind
    case Saga => op := Action;
    case Workflow => op := WorkflowStep;
    case Message => op := Deliver;
    case Xa => op := Commit;
    case Tcc => op := Try;
  }

  lemma DerivedIsCovered(tx: Transaction, k: nat)
    requires k < |tx.branches| && forall key :: Possible(tx, key) ==> Derived(tx, key)
    ensures RightKind(tx, tx.branches[k].id)
  {
    var op := EveryKindHasOne(tx.kind);
    var key := Key(tx.branches[k].id, op);
    assert Possible(tx, key);
    var i :| 0 <= i < |tx.branches| && Names(tx.branches[i], key);
  }

  /** The derived list holds every barrier that an operation can take if and only if every branch id
      belongs to a branch of the right kind. */
  lemma DerivedCoversIffWellKinded(tx: Transaction)
    ensures (forall key :: Possible(tx, key) ==> Derived(tx, key)) <==> Covered(tx)
  {
    assert Covered(tx) ==> forall key :: Possible(tx, key) ==> Derived(tx, key);
    if forall key :: Possible(tx, key) ==> Derived(tx, key) {
      forall k | 0 <= k < |tx.branches| ensures RightKind(tx, tx.branches[k].id) { DerivedIsCovered(tx, k); }
    }
  }

  // ---------------------------------------------------------------------
  // The shared store

  /** `index` is the per-gid barrier index; nothing ties it to the barriers. */
  datatype Shared = Shared(records: map<string, Transaction>, barriers: set<(string, Key)>, index: set<(string, Key)>)

  predicate Unchanged(sh: Shared, tx: Transaction) {
    tx.gid in sh.records && sh.records[tx.gid] == tx
  }

  /** DELETE_TRANSACTION_IF_UNCHANGED, when it deletes. */
  function Deleted(sh: Shared, tx: Transaction): Shared {
    Shared(
      sh.records - {tx.gid},
      set entry | entry in sh.barriers && !(entry.0 == tx.gid && (entry in sh.index || Derived(tx, entry.1))),
      set entry | entry in sh.index && entry.0 != tx.gid)
  }

  /** Whatever the index lost, no barrier of the transaction is left. */
  lemma PurgeLeavesNoBarrier(sh: Shared, tx: Transaction, key: Key)
    requires Covered(tx)
    requires forall k :: (tx.gid, k) in sh.barriers ==> (tx.gid, k) in sh.index || Possible(tx, k)
    ensures (tx.gid, key) !in Deleted(sh, tx).barriers
  {
  }

  /** Without the condition, a lost index entry means a barrier that is left. */
  lemma IllKindedLeavesBarrier(tx: Transaction) returns (sh: Shared, key: Key)
    requires !Covered(tx)
    ensures Unchanged(sh, tx) && Possible(tx, key) && (tx.gid, key) in Deleted(sh, tx).barriers
  {
    DerivedCoversIffWellKinded(tx);
    key :| Possible(tx, key) && !Derived(tx, key);
    sh := Shared(map[tx.gid := tx], {(tx.gid, key)}, {});
  }

  // ---------------------------------------------------------------------
  // A purge, with others at work between its deletes

  class Store {
    var records: map<string, Transaction>
    var barriers: set<(string, Key)>
    var index: set<(string, Key)>

    function View(): Shared
      reads this
    {
      Shared(records, barriers, index)
    }

    method DeleteIfUnchanged(tx: Transaction) returns (ok: bool)
      modifies this
      ensures ok <==> old(Unchanged(View(), tx))
      ensures View() == if ok then old(Deleted(View(), tx)) else old(View())
    {
      ok := tx.gid in records && records[tx.gid] == tx;
      if ok {
        var fields := DerivedFields(tx);
        records := records - {tx.gid};
        barriers := set entry | entry in barriers && !(entry.0 == tx.gid && (entry in index || entry.1 in fields));
        index := set entry | entry in index && entry.0 != tx.gid;
      }
    }

    method Others(turn: Shared -> Shared)
      modifies this
      ensures View() == turn(old(View()))
    {
      var after := turn(View());
      records, barriers, index := after.records, after.barriers, after.index;
    }
  }

  /** Others take their turn, then one delete is tried. */
  function AfterDelete(turn: Shared -> Shared, sh: Shared, tx: Transaction): Shared {
    if Unchanged(turn(sh), tx) then Deleted(turn(sh), tx) else turn(sh)
  }

  /** The store after trying targets k and on, and how many were deleted. */
  function Sweep(sh: Shared, targets: seq<Transaction>, turns: nat -> Shared -> Shared, k: nat): (Shared, nat)
    decreases |targets| - k
  {
    if k >= |targets| then (sh, 0)
    else
      var rest := Sweep(AfterDelete(turns(k), sh, targets[k]), targets, turns, k + 1);
      (rest.0, rest.1 + if Unchanged(turns(k)(sh), targets[k]) then 1 else 0)
  }

  /** The deletes, one by one; turns(k) is what others do before delete k. */
  method DeleteAll(store: Store, targets: seq<Transaction>, turns: nat -> Shared -> Shared)
    returns (eligible: nat, deleted: nat, conflicts: nat)
    modifies store
    ensures (store.View(), deleted) == Sweep(old(store.View()), targets, turns, 0)
    ensures eligible == |targets| == deleted + conflicts
  {
    eligible, deleted, conflicts := 0, 0, 0;
    ghost var all := Sweep(store.View(), targets, turns, 0);
    while eligible < |targets|
      invariant eligible == deleted + conflicts <= |targets|
      invariant all.0 == Sweep(store.View(), targets, turns, eligible).0
      invariant all.1 == Sweep(store.View(), targets, turns, eligible).1 + deleted
    {
      store.Others(turns(eligible));
      var ok := store.DeleteIfUnchanged(targets[eligible]);
      eligible := eligible + 1;
      if ok { deleted := deleted + 1; } else { conflicts := conflicts + 1; }
    }
  }

  /** purge_expired_transactions */
  method Purge(store: Store, listed: seq<Transaction>, p: Policy, now: nat, turns: nat -> Shared -> Shared)
    returns (report: Option<Report>)
    modifies store
    ensures report.Some? <==> 0 < p.finishedExpire <= p.dataExpire && 1 <= p.batch <= 10_000
    ensures report.None? ==> store.View() == old(store.View())
    ensures report.Some? ==>
              var targets := Targets(listed, now, p);
              && (store.View(), report.value.deleted) == Sweep(old(store.View()), targets, turns, 0)
              && report.value.scanned == |listed|
              && report.value.eligible == |targets| == report.value.deleted + report.value.conflicts
              && report.value.eligible <= p.batch
              && forall gid :: Spared(old(store.View()), listed, now, p, turns, gid) ==> gid in store.records
  {
    if !ValidPolicy(p) { return None; }
    var eligible, deleted, conflicts := DeleteAll(store, Targets(listed, now, p), turns);
    TargetsAreOldest(listed, now, p);
    forall gid | Spared(old(store.View()), listed, now, p, turns, gid) ensures gid in store.records {
      WithinPeriodSurvives(old(store.View()), listed, now, p, turns, gid);
    }
    report := Some(Report(|listed|, eligible, deleted, conflicts));
  }

  // ---------------------------------------------------------------------
  // What the sweep leaves

  /** The store that turn i finds, in a sweep that tries target k next. */
  function Reached(sh: Shared, targets: seq<Transaction>, turns: nat -> Shared -> Shared, k: nat, i: nat): Shared
    decreases i - k
  {
    if k >= i || k >= |targets| then sh
    else Reached(AfterDelete(turns(k), sh, targets[k]), targets, turns, k + 1, i)
  }

  /** A turn keeps this record, and does not lower its revision. */
  predicate Keeps(before: Shared, after: Shared, gid: string) {
    gid in before.records ==> gid in after.records && after.records[gid].revision >= before.records[gid].revision
  }

  /** A turn writes this record: its revision rises. */
  predicate Raises(before: Shared, after: Shared, gid: string) {
    gid in before.records ==> gid in after.records && after.records[gid].revision > before.records[gid].revision
  }

  predicate SameRecord(a: Shared, b: Shared, gid: string) {
    (gid in a.records <==> gid in b.records) && (gid in a.records && gid in b.records ==> a.records[gid] == b.records[gid])
  }

  /** The turns of the sweep keep the record, each on the store that it finds. */
  ghost predicate TurnsKeep(sh: Shared, targets: seq<Transaction>, turns: nat -> Shared -> Shared, k: nat, gid: string) {
    forall i: nat :: k <= i < |targets| ==>
      Keeps(Reached(sh, targets, turns, k, i), turns(i)(Reached(sh, targets, turns, k, i)), gid)
  }

  ghost predicate TurnsSpare(sh: Shared, targets: seq<Transaction>, turns: nat -> Shared -> Shared, k: nat, gid: string) {
    forall i: nat :: k <= i < |targets| ==>
      SameRecord(Reached(sh, targets, turns, k, i), turns(i)(Reached(sh, targets, turns, k, i)), gid)
  }

  lemma LaterTurns(sh: Shared, targets: seq<Transaction>, turns: nat -> Shared -> Shared, k: nat, gid: string)
    requires k < |targets|
    ensures var next := AfterDelete(turns(k), sh, targets[k]);
            && (TurnsKeep(sh, targets, turns, k, gid) ==>
                  Keeps(sh, turns(k)(sh), gid) && TurnsKeep(next, targets, turns, k + 1, gid))
            && (TurnsSpare(sh, targets, turns, k, gid) ==>
                  SameRecord(sh, turns(k)(sh), gid) && TurnsSpare(next, targets, turns, k + 1, gid))
  {
    var next := AfterDelete(turns(k), sh, targets[k]);
    assert Reached(sh, targets, turns, k, k) == sh;
    forall i: nat | k + 1 <= i < |targets|
      ensures Reached(sh, targets, turns, k, i) == Reached(next, targets, turns, k + 1, i) { }
  }

  /** A record that no target names, or that has moved past the revision the purge scanned, survives. */
  lemma {:induction false} ChangedSurvives(
    sh: Shared, targets: seq<Transaction>, turns: nat -> Shared -> Shared, k: nat, gid: string)
    requires TurnsKeep(sh, targets, turns, k, gid)
    requires gid in sh.records
    requires forall i: nat :: k <= i < |targets| && targets[i].gid == gid ==> targets[i].revision < sh.records[gid].revision
    ensures gid in Sweep(sh, targets, turns, k).0.records
    decreases |targets| - k
  {
    if k < |targets| {
      LaterTurns(sh, targets, turns, k, gid);
      ChangedSurvives(AfterDelete(turns(k), sh, targets[k]), targets, turns, k + 1, gid);
    }
  }

  /** A record that somebody changes after the scan and before its own delete survives: what the
      comparison is for. Turn i writes target j, and i comes no later than the delete of j. */
  lemma {:induction false} ChangedMeanwhileSurvives(
    sh: Shared, targets: seq<Transaction>, turns: nat -> Shared -> Shared, k: nat, i: nat, j: nat)
    requires k <= i <= j < |targets|
    requires forall a, b :: 0 <= a < b < |targets| ==> targets[a].gid != targets[b].gid
    requires TurnsKeep(sh, targets, turns, k, targets[j].gid)
    requires var found := Reached(sh, targets, turns, k, i); Raises(found, turns(i)(found), targets[j].gid)
    requires targets[j].gid in sh.records && targets[j].revision <= sh.records[targets[j].gid].revision
    ensures targets[j].gid in Sweep(sh, targets, turns, k).0.records
    decreases i - k
  {
    var gid, next := targets[j].gid, AfterDelete(turns(k), sh, targets[k]);
    LaterTurns(sh, targets, turns, k, gid);
    assert k < j ==> targets[k].gid != gid;
    if k < i {
      ChangedMeanwhileSurvives(next, targets, turns, k + 1, i, j);
    } else {
      LaterTargets(targets, k + 1, j, next);
      ChangedSurvives(next, targets, turns, k + 1, gid);
    }
  }

  lemma LaterTargets(targets: seq<Transaction>, k: nat, j: nat, next: Shared)
    requires j < |targets| && forall a, b :: 0 <= a < b < |targets| ==> targets[a].gid != targets[b].gid
    requires targets[j].gid in next.records && targets[j].revision < next.records[targets[j].gid].revision
    ensures forall n: nat :: k <= n < |targets| && targets[n].gid == targets[j].gid ==>
              targets[n].revision < next.records[targets[j].gid].revision
  {
    forall n: nat | k <= n < |targets| && targets[n].gid == targets[j].gid ensures n == j { }
  }

  /** A record that the purge listed within its period, and that nobody else deletes. */
  ghost predicate Spared(
    sh: Shared, listed: seq<Transaction>, now: nat, p: Policy, turns: nat -> Shared -> Shared, gid: string)
  {
    && gid in sh.records && TurnsKeep(sh, Targets(listed, now, p), turns, 0, gid)
    && forall tx :: tx in listed && tx.gid == gid ==> !PastItsPeriod(tx, now, p)
  }

  /** It survives. */
  lemma WithinPeriodSurvives(
    sh: Shared, listed: seq<Transaction>, now: nat, p: Policy, turns: nat -> Shared -> Shared, gid: string)
    requires Spared(sh, listed, now, p, turns, gid)
    ensures gid in Sweep(sh, Targets(listed, now, p), turns, 0).0.records
  {
    TargetsByAge(listed, now, p);
    ChangedSurvives(sh, Targets(listed, now, p), turns, 0, gid);
  }

  /** A target that nobody touches is deleted. */
  lemma {:induction false} UntouchedIsDeleted(
    sh: Shared, targets: seq<Transaction>, turns: nat -> Shared -> Shared, k: nat, i: nat)
    requires k <= i < |targets| && Unchanged(sh, targets[i])
    requires forall a, b :: 0 <= a < b < |targets| ==> targets[a].gid != targets[b].gid
    requires TurnsSpare(sh, targets, turns, k, targets[i].gid)
    ensures targets[i].gid !in Sweep(sh, targets, turns, k).0.records
    decreases |targets| - k
  {
    LaterTurns(sh, targets, turns, k, targets[i].gid);
    var next := AfterDelete(turns(k), sh, targets[k]);
    if k < i {
      UntouchedIsDeleted(next, targets, turns, k + 1, i);
    } else {
      StaysAway(next, targets, turns, k + 1, targets[i].gid);
    }
  }

  lemma {:induction false} StaysAway(
    sh: Shared, targets: seq<Transaction>, turns: nat -> Shared -> Shared, k: nat, gid: string)
    requires gid !in sh.records && TurnsSpare(sh, targets, turns, k, gid)
    ensures gid !in Sweep(sh, targets, turns, k).0.records
    decreases |targets| - k
  {
    if k < |targets| {
      LaterTurns(sh, targets, turns, k, gid);
      StaysAway(AfterDelete(turns(k), sh, targets[k]), targets, turns, k + 1, gid);
    }
  }
}
