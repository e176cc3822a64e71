/** The layered execution of an accepted dependency graph: which branches are ready,
    why the two loops never get stuck, and how many rounds they take. */
module Layers {
  import opened Core
  import opened DependencyGraph

  // ---------------------------------------------------------------------
  // Ready layers

  function SucceededIds(bs: seq<Branch>): set<string> {
    set b | b in bs && b.status == BranchStatus.Succeeded :: b.id
  }

  predicate ActionReady(bs: seq<Branch>, i: nat) {
    && i < |bs|
    && (bs[i].status.Pending? || bs[i].status.Failed?)
    && forall d :: d in bs[i].dependencies ==> d in SucceededIds(bs)
  }

  function ReadyActions(bs: seq<Branch>): seq<nat> {
    IndicesWhere(|bs|, (i: nat) => ActionReady(bs, i))
  }

  predicate CompensationReady(bs: seq<Branch>, i: nat) {
    && i < |bs|
    && bs[i].status.Compensating?
    && !exists j :: 0 <= j < |bs| && bs[i].id in bs[j].dependencies && bs[j].status.Compensating?
  }

  function ReadyCompensations(bs: seq<Branch>): seq<nat> {
    IndicesWhere(|bs|, (i: nat) => CompensationReady(bs, i))
  }

  predicate AllSucceeded(bs: seq<Branch>) {
    forall i :: 0 <= i < |bs| ==> bs[i].status.Succeeded?
  }

  predicate NoneCompensating(bs: seq<Branch>) {
    forall i :: 0 <= i < |bs| ==> !bs[i].status.Compensating?
  }

  /** No branch is in flight, so every branch is either done or can be called again. */
  predicate Settled(bs: seq<Branch>) {
    forall i :: 0 <= i < |bs| ==> bs[i].status.Pending? || bs[i].status.Failed? || bs[i].status.Succeeded?
  }

  // ---------------------------------------------------------------------
  // The layers never get stuck

  /** Some element satisfying p has the lowest rank among those that do. */
  lemma {:induction false} LowestRanked(rank: seq<nat>, p: nat -> bool, i: nat) returns (low: nat)
    requires i < |rank| && p(i)
    ensures low < |rank| && p(low)
    ensures forall j: nat :: j < |rank| && p(j) ==> rank[low] <= rank[j]
    decreases rank[i]
  {
    if j: nat :| j < |rank| && p(j) && rank[j] < rank[i] {
      low := LowestRanked(rank, p, j);
    } else {
      low := i;
    }
  }

  /** Some element satisfying p has the highest rank among those that do. */
  lemma {:induction false} HighestRanked(rank: seq<nat>, p: nat -> bool, i: nat, bound: nat) returns (high: nat)
    requires i < |rank| && p(i) && forall j :: 0 <= j < |rank| ==> rank[j] <= bound
    ensures high < |rank| && p(high)
    ensures forall j: nat :: j < |rank| && p(j) ==> rank[j] <= rank[high]
    decreases bound - rank[i]
  {
    if j: nat :| j < |rank| && p(j) && rank[j] > rank[i] {
      high := HighestRanked(rank, p, j, bound);
    } else {
      high := i;
    }
  }

  lemma {:induction false} Bound(s: seq<nat>) returns (b: nat)
    ensures forall j :: 0 <= j < |s| ==> s[j] <= b
  {
    if s == [] {
      b := 0;
    } else {
      var n := |s| - 1;
      var rest := Bound(s[..n]);
      b := if rest < s[n] then s[n] else rest;
      forall j | 0 <= j < |s| ensures s[j] <= b {
        if j < n { assert s[..n][j] <= rest; }
      }
    }
  }

  /** The action layer is empty exactly when every branch has succeeded. */
  lemma ActionLayerEmptyOnlyWhenDone(bs: seq<Branch>)
    requires WellFormed(bs) && Settled(bs)
    ensures ReadyActions(bs) == [] <==> AllSucceeded(bs)
  {
    if i :| 0 <= i < |bs| && !bs[i].status.Succeeded? {
      var rank :| Ranks(bs, rank);
      var open: nat -> bool := (j: nat) => j < |bs| && !bs[j].status.Succeeded?;
      var low := LowestRanked(rank, open, i);
      forall d | d in bs[low].dependencies ensures d in SucceededIds(bs) {
        assert HasId(bs, d);
        var j: nat :| j < |bs| && bs[j].id == d;
        assert DependsOn(bs, low, j);
        assert !open(j);
        assert bs[j] in bs;
      }
      assert ActionReady(bs, low);
      assert low in ReadyActions(bs);
    } else if ReadyActions(bs) != [] {
      assert ReadyActions(bs)[0] in ReadyActions(bs);
    }
  }

  /** The compensation layer is empty exactly when nothing is left to compensate, so the
      "unresolved compensation dependencies" error cannot be reached. */
  lemma CompensationLayerEmptyOnlyWhenDone(bs: seq<Branch>)
    requires WellFormed(bs)
    ensures ReadyCompensations(bs) == [] <==> NoneCompensating(bs)
  {
    if i :| 0 <= i < |bs| && bs[i].status.Compensating? {
      var rank :| Ranks(bs, rank);
      var bound := Bound(rank);
      var open: nat -> bool := (j: nat) => j < |bs| && bs[j].status.Compensating?;
      var high := HighestRanked(rank, open, i, bound);
      forall j | 0 <= j < |bs| && bs[high].id in bs[j].dependencies ensures !bs[j].status.Compensating? {
        assert DependsOn(bs, j, high);
        assert rank[high] < rank[j];
        assert !open(j);
      }
      assert CompensationReady(bs, high);
      assert high in ReadyCompensations(bs);
    } else if ReadyCompensations(bs) != [] {
      assert ReadyCompensations(bs)[0] in ReadyCompensations(bs);
    }
  }

  // ---------------------------------------------------------------------
  // The loops

  /** Replaces the status of every listed branch. */
  function WithStatuses(bs: seq<Branch>, layer: seq<nat>, status: nat -> BranchStatus): (r: seq<Branch>)
    ensures SameDefinitions(r, bs)
    ensures forall i :: 0 <= i < |bs| ==> r[i].status == (if i in layer then status(i) else bs[i].status)
  {
    seq(|bs|, i requires 0 <= i < |bs| => if i in layer then bs[i].(status := status(i)) else bs[i])
  }

  lemma SameGraph(a: seq<Branch>, b: seq<Branch>)
    requires SameDefinitions(a, b)
    ensures Ids(a) == Ids(b)
    ensures forall i :: 0 <= i < |a| ==> a[i].dependencies == b[i].dependencies && a[i].id == b[i].id
    ensures WellFormed(a) <==> WellFormed(b)
  {
    forall i | 0 <= i < |a| ensures a[i].dependencies == b[i].dependencies && a[i].id == b[i].id {
      assert Definition(a[i]) == Definition(b[i]);
    }
    if WellFormed(a) { WellFormedTransfers(a, b); }
    if WellFormed(b) { WellFormedTransfers(b, a); }
  }

  lemma WellFormedTransfers(a: seq<Branch>, b: seq<Branch>)
    requires |a| == |b|
    requires forall i :: 0 <= i < |a| ==> a[i].dependencies == b[i].dependencies && a[i].id == b[i].id
    requires WellFormed(a)
    ensures WellFormed(b)
  {
    forall i, d | 0 <= i < |b| && d in b[i].dependencies ensures HasId(b, d) {
      assert HasId(a, d);
      var j :| 0 <= j < |a| && a[j].id == d;
      assert b[j].id == d;
    }
    var rank :| Ranks(a, rank);
    forall i, j | 0 <= i < |b| && 0 <= j < |b| && DependsOn(b, i, j) ensures rank[j] < rank[i] {
      assert DependsOn(a, i, j);
    }
    assert Ranks(b, rank);
  }

  ghost function Having(bs: seq<Branch>, status: BranchStatus): set<nat> {
    set i: nat | i < |bs| && bs[i].status == status
  }

  lemma HavingBound(bs: seq<Branch>, status: BranchStatus)
    ensures |Having(bs, status)| <= |bs|
    ensures (exists i :: 0 <= i < |bs| && bs[i].status != status) ==> |Having(bs, status)| < |bs|
  {
    BoundedSet(Having(bs, status), |bs|);
    if i: nat :| i < |bs| && bs[i].status != status {
      BoundedSet(Having(bs, status) + {i}, |bs|);
    }
  }

  /** A layer whose members all move to `status` makes the set with that status grow. */
  lemma LayerGrows(bs: seq<Branch>, next: seq<Branch>, layer: seq<nat>, status: BranchStatus)
    requires |next| == |bs| && layer != []
    requires forall i :: i in layer ==> i < |bs| && bs[i].status != status && next[i].status == status
    requires forall i :: 0 <= i < |bs| && bs[i].status == status ==> next[i].status == status
    ensures |Having(bs, status)| < |Having(next, status)|
  {
    var i := layer[0];
    assert i in layer;
    SubsetSize(Having(bs, status) + {i}, Having(next, status));
  }

  lemma {:induction false} SubsetSize(a: set<nat>, b: set<nat>)
    requires a <= b
    ensures |a| <= |b|
  {
    if x :| x in a {
      SubsetSize(a - {x}, b - {x});
    }
  }

  /** The set of succeeded branches holds the dependencies of each of its members. */
  predicate SucceededClosed(bs: seq<Branch>) {
    forall i, j :: 0 <= i < |bs| && 0 <= j < |bs| && DependsOn(bs, i, j) && bs[i].status.Succeeded?
      ==> bs[j].status.Succeeded?
  }

  /** What forward rounds keep: the graph, old successes, and closedness. */
  predicate ActionProgress(before: seq<Branch>, after: seq<Branch>) {
    && SameDefinitions(after, before)
    && (Settled(before) ==> Settled(after))
    && (SucceededClosed(before) ==> SucceededClosed(after))
    && (forall i :: 0 <= i < |before| && before[i].status.Succeeded? ==> after[i].status.Succeeded?)
  }

  lemma ActionLayerAdvances(bs: seq<Branch>, next: seq<Branch>)
    requires UniqueIds(bs) && SameDefinitions(next, bs)
    requires forall i: nat :: i < |bs| && !ActionReady(bs, i) ==> next[i].status == bs[i].status
    requires forall i: nat :: ActionReady(bs, i) ==> next[i].status.Succeeded? || next[i].status.Failed?
    ensures ActionProgress(bs, next)
  {
    forall i: nat | i < |bs| ensures bs[i].status.Succeeded? ==> next[i].status.Succeeded? {
      assert bs[i].status.Succeeded? ==> !ActionReady(bs, i);
    }
    forall i: nat | i < |bs| && Settled(bs)
      ensures next[i].status.Pending? || next[i].status.Failed? || next[i].status.Succeeded?
    {
      if !ActionReady(bs, i) { assert next[i].status == bs[i].status; }
    }
  }

  /** The round from `before`: exactly the ready branches were called, and show their answers. */
  ghost predicate ActionsAnswered(before: seq<Branch>, after: seq<Branch>, round: nat, answer: (nat, nat) -> bool) {
    && |after| == |before|
    && forall i: nat :: i < |before| ==>
         after[i].status == if !ActionReady(before, i) then before[i].status
                            else if answer(round, i) then BranchStatus.Succeeded else BranchStatus.Failed
  }

  /** The round from `last` failed on a branch that was ready in it. */
  ghost predicate ActionFailed(start: seq<Branch>, last: seq<Branch>, bs: seq<Branch>, round: nat,
                               answer: (nat, nat) -> bool) {
    && ActionProgress(start, last) && ActionsAnswered(last, bs, round, answer)
    && exists i: nat :: ActionReady(last, i) && !answer(round, i)
  }

  lemma ActionProgressTransitive(a: seq<Branch>, b: seq<Branch>, c: seq<Branch>)
    requires ActionProgress(a, b) && ActionProgress(b, c)
    ensures ActionProgress(a, c)
  {
  }

  /** One round: every ready branch is called once. */
  method ActionRound(bs: seq<Branch>, round: nat, answer: (nat, nat) -> bool) returns (next: seq<Branch>, failed: bool)
    requires UniqueIds(bs) && ReadyActions(bs) != []
    ensures ActionProgress(bs, next) && ActionsAnswered(bs, next, round, answer)
    ensures failed <==> exists i: nat :: ActionReady(bs, i) && !answer(round, i)
    ensures !failed ==> |Having(bs, BranchStatus.Succeeded)| < |Having(next, BranchStatus.Succeeded)|
  {
    var ready := ReadyActions(bs);
    var outcome := (i: nat) => if answer(round, i) then BranchStatus.Succeeded else BranchStatus.Failed;
    next := WithStatuses(bs, ready, outcome);
    ActionLayerAdvances(bs, next);
    failed := exists i: nat :: i in ready && !answer(round, i);
    if !failed { LayerGrows(bs, next, ready, BranchStatus.Succeeded); }
  }

  /** How the forward loop from `start` ends: after this many rounds with bs, and `last` before the last
      round. It ends with every branch succeeded, with a failed call of a branch that was ready in its
      last round, or because a branch left in flight blocks the rest. */
  ghost predicate ActionLayersEnd(start: seq<Branch>, bs: seq<Branch>, rounds: nat, last: seq<Branch>,
                                  answer: (nat, nat) -> bool) {
    && ActionProgress(start, bs)
    && rounds + |Having(start, BranchStatus.Succeeded)| <= |start|
    && (|| AllSucceeded(bs)
        || (rounds > 0 && ActionFailed(start, last, bs, rounds - 1, answer))
        || (ReadyActions(bs) == [] && !Settled(bs)))
  }

  /** The forward loop of a concurrent Saga when nobody interferes; `answer(r, i)` is the
      outcome of calling branch i in round r. */
  method RunActionLayers(start: seq<Branch>, answer: (nat, nat) -> bool)
    returns (bs: seq<Branch>, rounds: nat, ghost last: seq<Branch>)
    requires WellFormed(start)
    ensures ActionLayersEnd(start, bs, rounds, last, answer)
  {
    bs, rounds, last := start, 0, start;
    HavingBound(start, BranchStatus.Succeeded);
    while !AllSucceeded(bs)
      invariant ActionProgress(start, bs)
      invariant rounds + |Having(start, BranchStatus.Succeeded)| <= |Having(bs, BranchStatus.Succeeded)| <= |bs|
      decreases |bs| - |Having(bs, BranchStatus.Succeeded)|
    {
      SameGraph(bs, start);
      HavingBound(bs, BranchStatus.Succeeded);
      if ReadyActions(bs) == [] {
        if Settled(bs) { ActionLayerEmptyOnlyWhenDone(bs); }
        return;
      }
      var next, failed := ActionRound(bs, rounds, answer);
      ActionProgressTransitive(start, bs, next);
      bs, rounds, last := next, rounds + 1, bs;
      if failed { return; }
      HavingBound(bs, BranchStatus.Succeeded);
    }
  }

  /** The statuses a compensation pass works on. */
  predicate Unwinding(bs: seq<Branch>) {
    forall i :: 0 <= i < |bs| ==> bs[i].status.Compensating? || bs[i].status.Skipped?
  }

  /** The set still to compensate holds the dependencies of each of its members. */
  predicate CompensatingClosed(bs: seq<Branch>) {
    forall i, j :: 0 <= i < |bs| && 0 <= j < |bs| && DependsOn(bs, i, j) && bs[i].status.Compensating?
      ==> bs[j].status.Compensating?
  }

  /** The status rewrite that opens every compensation pass. */
  function MarkAborting(b: Branch): Branch {
    match b.status
    case Succeeded => b.(status := BranchStatus.Compensating)
    case Pending => b.(status := BranchStatus.Skipped, nextRetry := None)
    case Running => b.(status := BranchStatus.Skipped, nextRetry := None)
    case Failed => b.(status := BranchStatus.Skipped, nextRetry := None)
    case Compensating => b
    case Skipped => b
  }

  function MarkAllAborting(bs: seq<Branch>): (r: seq<Branch>)
    ensures SameDefinitions(r, bs) && Unwinding(r)
    ensures forall i :: 0 <= i < |bs| ==> (r[i].status.Compensating? <==> Recorded(bs[i]))
  {
    seq(|bs|, i requires 0 <= i < |bs| => MarkAborting(bs[i]))
  }

  /** The branch's action is on record as successful and not yet compensated. */
  predicate Recorded(b: Branch) {
    b.status.Succeeded? || b.status.Compensating?
  }

  predicate RecordedClosed(bs: seq<Branch>) {
    forall i, j :: 0 <= i < |bs| && 0 <= j < |bs| && DependsOn(bs, i, j) && Recorded(bs[i]) ==> Recorded(bs[j])
  }

  /** What compensation rounds keep. */
  predicate CompensationProgress(before: seq<Branch>, after: seq<Branch>) {
    && SameDefinitions(after, before)
    && Unwinding(after)
    && (CompensatingClosed(before) ==> CompensatingClosed(after))
    && (forall i :: 0 <= i < |before| && before[i].status.Skipped? ==> after[i].status.Skipped?)
  }

  lemma CompensationLayerAdvances(bs: seq<Branch>, next: seq<Branch>)
    requires Unwinding(bs) && SameDefinitions(next, bs)
    requires forall i: nat :: i < |bs| && !CompensationReady(bs, i) ==> next[i].status == bs[i].status
    requires forall i: nat :: CompensationReady(bs, i) ==> next[i].status.Compensating? || next[i].status.Skipped?
    ensures CompensationProgress(bs, next)
  {
  }

  ghost predicate CompensationsAnswered(before: seq<Branch>, after: seq<Branch>, round: nat, answer: (nat, nat) -> bool) {
    && |after| == |before|
    && forall i: nat :: i < |before| ==>
         after[i].status == if !CompensationReady(before, i) then before[i].status
                            else if answer(round, i) then BranchStatus.Skipped else BranchStatus.Compensating
  }

  method CompensationRound(bs: seq<Branch>, round: nat, answer: (nat, nat) -> bool)
    returns (next: seq<Branch>, failed: bool)
    requires WellFormed(bs) && Unwinding(bs) && !NoneCompensating(bs)
    ensures CompensationProgress(bs, next) && CompensationsAnswered(bs, next, round, answer)
    ensures failed <==> exists i: nat :: CompensationReady(bs, i) && !answer(round, i)
    ensures !failed ==> |Having(bs, BranchStatus.Skipped)| < |Having(next, BranchStatus.Skipped)|
  {
    CompensationLayerEmptyOnlyWhenDone(bs);
    var ready := ReadyCompensations(bs);
    var outcome := (i: nat) => if answer(round, i) then BranchStatus.Skipped else BranchStatus.Compensating;
    next := WithStatuses(bs, ready, outcome);
    CompensationLayerAdvances(bs, next);
    failed := exists i: nat :: i in ready && !answer(round, i);
    if !failed { LayerGrows(bs, next, ready, BranchStatus.Skipped); }
  }

  ghost predicate CompensationFailed(marked: seq<Branch>, last: seq<Branch>, bs: seq<Branch>, round: nat,
                                     answer: (nat, nat) -> bool) {
    && CompensationProgress(marked, last) && CompensationsAnswered(last, bs, round, answer)
    && exists i: nat :: CompensationReady(last, i) && !answer(round, i)
  }

  lemma CompensationProgressTransitive(a: seq<Branch>, b: seq<Branch>, c: seq<Branch>)
    requires CompensationProgress(a, b) && CompensationProgress(b, c)
    ensures CompensationProgress(a, c)
  {
  }

  lemma MarkingKeepsClosed(start: seq<Branch>)
    requires RecordedClosed(start)
    ensures CompensatingClosed(MarkAllAborting(start))
  {
    SameGraph(MarkAllAborting(start), start);
  }

  /** How the compensation loop ends: with nothing left to compensate, or with a failed call of a branch
      that was ready in its last round. */
  ghost predicate CompensationLayersEnd(marked: seq<Branch>, bs: seq<Branch>, rounds: nat, last: seq<Branch>,
                                        answer: (nat, nat) -> bool) {
    && CompensationProgress(marked, bs)
    && rounds <= |marked|
    && (NoneCompensating(bs) || (rounds > 0 && CompensationFailed(marked, last, bs, rounds - 1, answer)))
  }

  /** The compensation loop over branches already marked. */
  method CompensateMarked(marked: seq<Branch>, answer: (nat, nat) -> bool)
    returns (bs: seq<Branch>, rounds: nat, ghost last: seq<Branch>)
    requires WellFormed(marked) && Unwinding(marked)
    ensures CompensationLayersEnd(marked, bs, rounds, last, answer)
  {
    bs, rounds, last := marked, 0, marked;
    HavingBound(bs, BranchStatus.Skipped);
    while !NoneCompensating(bs)
      invariant CompensationProgress(marked, bs)
      invariant rounds <= |Having(bs, BranchStatus.Skipped)| <= |bs|
      decreases |bs| - |Having(bs, BranchStatus.Skipped)|
    {
      SameGraph(bs, marked);
      HavingBound(bs, BranchStatus.Skipped);
      var next, failed := CompensationRound(bs, rounds, answer);
      CompensationProgressTransitive(marked, bs, next);
      bs, rounds, last := next, rounds + 1, bs;
      if failed { return; }
      HavingBound(bs, BranchStatus.Skipped);
    }
  }

  /** The compensation pass when nobody interferes. It never ends for want of a ready branch. */
  method RunCompensationLayers(start: seq<Branch>, answer: (nat, nat) -> bool)
    returns (bs: seq<Branch>, rounds: nat, ghost last: seq<Branch>)
    requires WellFormed(start)
    ensures CompensationLayersEnd(MarkAllAborting(start), bs, rounds, last, answer)
    ensures RecordedClosed(start) ==> CompensatingClosed(bs)
  {
    var marked := MarkAllAborting(start);
    SameGraph(marked, start);
    if RecordedClosed(start) { MarkingKeepsClosed(start); }
    bs, rounds, last := CompensateMarked(marked, answer);
  }
}
