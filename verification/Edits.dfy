/** Edits that coordinator operations make on their local copy of a transaction, and the clock
    predicates that drive recovery. */
module Edits {
  import opened Core

  function Put(tx: Transaction, i: nat, status: BranchStatus, retry: Option<nat>): Transaction
    requires i < |tx.branches|
  {
    tx.(branches := tx.branches[i := tx.branches[i].(status := status, nextRetry := retry)])
  }

  function CountAttempt(b: Branch): Branch {
    b.(attempts := Next32(b.attempts))
  }

  function StartRunning(b: Branch): Branch {
    CountAttempt(b).(status := BranchStatus.Running)
  }

  function MarkRunning(tx: Transaction, layer: seq<nat>): Transaction {
    tx.(branches := seq(|tx.branches|, i requires 0 <= i < |tx.branches| =>
      if i in layer then StartRunning(tx.branches[i]) else tx.branches[i]))
  }

  function ClearRetries(bs: seq<Branch>): seq<Branch> {
    seq(|bs|, i requires 0 <= i < |bs| => bs[i].(nextRetry := None))
  }

  /** reset_retry: unfinished branches become due at once. */
  function MakeDue(bs: seq<Branch>, now: nat): seq<Branch> {
    seq(|bs|, i requires 0 <= i < |bs| =>
      if Unfinished(bs[i]) then bs[i].(nextRetry := Some(now)) else bs[i])
  }

  predicate Unfinished(b: Branch) {
    b.status.Failed? || b.status.Running? || b.status.Compensating?
  }

  /** is_expired */
  predicate Expired(tx: Transaction, now: nat) {
    match tx.timeout
    case Some(timeout) => SubSat(now, tx.createdAt) >= timeout
    case None => false
  }

  /** transaction_due: the retry times of unfinished branches have passed. */
  predicate RetriesDue(tx: Transaction, now: nat) {
    forall b :: b in tx.branches && Unfinished(b) ==> b.nextRetry.None? || b.nextRetry.value <= now
  }

  function FindBranch(bs: seq<Branch>, id: string): (r: Option<Branch>)
    ensures r.None? <==> forall b :: b in bs ==> b.id != id
    ensures r.Some? ==> r.value in bs && r.value.id == id
  {
    if bs == [] then None
    else if bs[0].id == id then Some(bs[0])
    else
      var r := FindBranch(bs[1..], id);
      assert bs == [bs[0]] + bs[1..];
      r
  }

  /** append_dynamic_branch: None is the refusal. */
  function AppendBranch(tx: Transaction, branch: Branch, now: nat): Option<Transaction> {
    if !(tx.kind.Tcc? || tx.kind.Xa? || tx.kind.Workflow?) then None
    else if !(tx.status.Submitted? || tx.status.Prepared?) then None
    else
      match FindBranch(tx.branches, branch.id)
      case Some(existing) => if existing == branch then Some(tx) else None
      case None => Some(Bumped(tx.(branches := tx.branches + [branch]), now))
  }

  predicate Known(bs: seq<Branch>, id: string) { exists i :: 0 <= i < |bs| && bs[i].id == id }

  lemma FindTells(bs: seq<Branch>, b: Branch)
    requires forall i, j :: 0 <= i < j < |bs| ==> bs[i].id != bs[j].id
    ensures FindBranch(bs, b.id).Some? <==> Known(bs, b.id)
    ensures FindBranch(bs, b.id) == Some(b) <==> b in bs
  {
    if i :| 0 <= i < |bs| && bs[i].id == b.id { assert bs[i] in bs; }
  }

  /** What a registration leads to: a new id on a Submitted or Prepared transaction is appended last, with
      everything else but revision and time stamp unchanged; the same branch again changes nothing; a
      different branch under a known id, any other status and any other kind are refused. */
  lemma RegistrationOutcome(tx: Transaction, b: Branch, now: nat)
    requires forall i, j :: 0 <= i < j < |tx.branches| ==> tx.branches[i].id != tx.branches[j].id
    ensures var r := AppendBranch(tx, b, now);
            var open := (tx.kind.Tcc? || tx.kind.Xa? || tx.kind.Workflow?) && (tx.status.Submitted? || tx.status.Prepared?);
            && (r.Some? <==> open && (Known(tx.branches, b.id) ==> b in tx.branches))
            && (r.Some? && Known(tx.branches, b.id) ==> r.value == tx)
            && (r.Some? && !Known(tx.branches, b.id) ==>
                  && r.value.branches == tx.branches + [b]
                  && r.value.revision == (if tx.revision < MAX_U64 then tx.revision + 1 else tx.revision)
                  && r.value.updatedAt == now
                  && r.value == tx.(branches := r.value.branches, revision := r.value.revision, updatedAt := now))
  {
    FindTells(tx.branches, b);
  }
}
