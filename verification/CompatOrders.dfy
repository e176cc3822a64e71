/** Branch orders in a compatibility request: index lists that become dependency lists. */
module CompatOrders {
  import opened Core
  import opened DependencyGraph

  /** One entry of the order table: a branch index and the indices it waits for. */
  datatype Order = Order(branch: nat, after: seq<nat>)

  /** The table as it is iterated, by ascending branch index. */
  predicate Ascending(orders: seq<Order>) {
    forall a, b :: 0 <= a < b < |orders| ==> orders[a].branch < orders[b].branch
  }

  predicate InRange(n: nat, order: Order) {
    order.branch < n && forall k :: 0 <= k < |order.after| ==> order.after[k] < order.branch
  }

  predicate AllInRange(n: nat, orders: seq<Order>) {
    forall a :: 0 <= a < |orders| ==> InRange(n, orders[a])
  }

  function IdsAt(bs: seq<Branch>, indices: seq<nat>): (r: seq<string>)
    requires forall k :: 0 <= k < |indices| ==> indices[k] < |bs|
    ensures |r| == |indices| && forall k :: 0 <= k < |r| ==> r[k] == bs[indices[k]].id
  {
    seq(|indices|, k requires 0 <= k < |indices| => bs[indices[k]].id)
  }

  /** Branch i carries the ids that the table lists for it, and is otherwise as before. */
  ghost predicate Resolved(bs: seq<Branch>, orders: seq<Order>, r: seq<Branch>)
    requires AllInRange(|bs|, orders)
  {
    && |r| == |bs|
    && (forall a :: 0 <= a < |orders| ==>
          r[orders[a].branch] == bs[orders[a].branch].(dependencies := IdsAt(bs, orders[a].after)))
    && forall i :: 0 <= i < |bs| && (forall a :: 0 <= a < |orders| ==> orders[a].branch != i) ==> r[i] == bs[i]
  }

  method ResolveOne(bs: seq<Branch>, order: Order) returns (ids: Option<seq<string>>)
    requires order.branch < |bs|
    ensures ids.Some? <==> InRange(|bs|, order)
    ensures ids.Some? ==> ids.value == IdsAt(bs, order.after)
  {
    var resolved: seq<string> := [];
    for k := 0 to |order.after|
      invariant forall j :: 0 <= j < k ==> order.after[j] < order.branch
      invariant |resolved| == k && forall j :: 0 <= j < k ==> resolved[j] == bs[order.after[j]].id
    {
      if order.after[k] >= order.branch { return None; }
      resolved := resolved + [bs[order.after[k]].id];
    }
    ids := Some(resolved);
  }

  /** apply_compat_saga_custom: refused when an index is out of range or does not precede its branch,
      or when orders come without concurrent execution. */
  method ApplyOrders(bs: seq<Branch>, concurrent: bool, orders: seq<Order>) returns (r: Option<seq<Branch>>)
    requires Ascending(orders)
    ensures r.Some? <==> (concurrent || orders == []) && AllInRange(|bs|, orders)
    ensures r.Some? ==> Resolved(bs, orders, r.value)
  {
    if !concurrent && orders != [] { return None; }
    var edited := bs;
    for a := 0 to |orders|
      invariant AllInRange(|bs|, orders[..a]) && Resolved(bs, orders[..a], edited)
      invariant Ids(edited) == Ids(bs)
    {
      var order := orders[a];
      if order.branch >= |bs| { return None; }
      var ids := ResolveOne(edited, order);
      if ids.None? { return None; }
      assert IdsAt(edited, order.after) == IdsAt(bs, order.after) by {
        forall k | 0 <= k < |order.after| ensures edited[order.after[k]].id == bs[order.after[k]].id {
          assert Ids(edited)[order.after[k]] == Ids(bs)[order.after[k]];
        }
      }
      var before := edited;
      edited := edited[order.branch := edited[order.branch].(dependencies := ids.value)];
      ResolvedNext(bs, orders, a, before, edited);
    }
    assert orders[..|orders|] == orders;
    r := Some(edited);
  }

  lemma ResolvedNext(bs: seq<Branch>, orders: seq<Order>, a: nat, before: seq<Branch>, after: seq<Branch>)
    requires Ascending(orders) && a < |orders| && AllInRange(|bs|, orders[..a]) && InRange(|bs|, orders[a])
    requires Resolved(bs, orders[..a], before)
    requires after == before[orders[a].branch := before[orders[a].branch].(dependencies := IdsAt(bs, orders[a].after))]
    ensures AllInRange(|bs|, orders[..a + 1]) && Resolved(bs, orders[..a + 1], after)
  {
  }

  // ---------------------------------------------------------------------
  // Which tables give an acceptable graph

  predicate DistinctIndices(s: seq<nat>) {
    forall a, b :: 0 <= a < b < |s| ==> s[a] != s[b]
  }

  predicate NoRepeats(orders: seq<Order>) {
    forall a :: 0 <= a < |orders| ==> DistinctIndices(orders[a].after)
  }

  predicate NoDependencies(bs: seq<Branch>) {
    forall i :: 0 <= i < |bs| ==> bs[i].dependencies == []
  }

  /** Dependencies of branch i come from its order, and lie below it. */
  lemma DependenciesPrecede(bs: seq<Branch>, orders: seq<Order>, r: seq<Branch>, i: nat, d: string) returns (j: nat)
    requires AllInRange(|bs|, orders) && Resolved(bs, orders, r) && NoDependencies(bs)
    requires i < |bs| && d in r[i].dependencies
    ensures j < i && bs[j].id == d
  {
    assert exists a :: 0 <= a < |orders| && orders[a].branch == i;
    var a :| 0 <= a < |orders| && orders[a].branch == i;
    assert InRange(|bs|, orders[a]);
    var k :| 0 <= k < |r[i].dependencies| && r[i].dependencies[k] == d;
    j := orders[a].after[k];
  }

  lemma SameIds(bs: seq<Branch>, orders: seq<Order>, r: seq<Branch>, i: nat)
    requires AllInRange(|bs|, orders) && Resolved(bs, orders, r) && i < |bs|
    ensures r[i].id == bs[i].id
  {
  }

  lemma OrdersMakeRanks(bs: seq<Branch>, orders: seq<Order>, r: seq<Branch>)
    requires AllInRange(|bs|, orders) && Resolved(bs, orders, r) && NoDependencies(bs) && UniqueIds(bs)
    ensures UniqueIds(r) && KnownDependencies(r) && NoSelfDependencies(r) && Acyclic(r)
  {
    forall i: nat | i < |bs| ensures r[i].id == bs[i].id { SameIds(bs, orders, r, i); }
    forall i, d | 0 <= i < |r| && d in r[i].dependencies ensures HasId(r, d) && d != r[i].id {
      var j := DependenciesPrecede(bs, orders, r, i, d);
      assert r[j].id == d;
    }
    var rank: seq<nat> := seq(|r|, i => i);
    forall i, j | 0 <= i < |r| && 0 <= j < |r| && DependsOn(r, i, j) ensures rank[j] < rank[i] {
      var k := DependenciesPrecede(bs, orders, r, i, r[j].id);
      assert k == j;
    }
    assert Ranks(r, rank);
  }

  lemma RepeatsShow(bs: seq<Branch>, orders: seq<Order>, r: seq<Branch>)
    requires AllInRange(|bs|, orders) && Resolved(bs, orders, r) && NoDependencies(bs) && UniqueIds(bs)
    ensures NoRepeatedDependencies(r) <==> NoRepeats(orders)
  {
  }

  /** A resolved order table over fresh branches passes the dependency check if and only if the branch
      ids are unique and no order repeats an index: cycles, self and unknown dependencies cannot
      arise. */
  lemma OrdersAcceptedIff(bs: seq<Branch>, orders: seq<Order>, r: seq<Branch>)
    requires AllInRange(|bs|, orders) && Resolved(bs, orders, r) && NoDependencies(bs)
    ensures WellFormed(r) <==> UniqueIds(bs) && NoRepeats(orders)
  {
    if UniqueIds(bs) {
      OrdersMakeRanks(bs, orders, r);
      RepeatsShow(bs, orders, r);
    } else {
      var i, j :| 0 <= i < j < |bs| && bs[i].id == bs[j].id;
      SameIds(bs, orders, r, i);
      SameIds(bs, orders, r, j);
    }
  }
}
