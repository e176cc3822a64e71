/** Dependency graphs of concurrent Sagas and Workflows: the depth-first
    validation, and the two layer loops that execute and compensate them. */
module DependencyGraph {
  import opened Core

  // ---------------------------------------------------------------------
  // What an acceptable graph is

  predicate UniqueIds(bs: seq<Branch>) {
    forall i, j :: 0 <= i < j < |bs| ==> bs[i].id != bs[j].id
  }

  predicate DependsOn(bs: seq<Branch>, i: nat, j: nat)
    requires i < |bs| && j < |bs|
  {
    bs[j].id in bs[i].dependencies
  }

  predicate HasId(bs: seq<Branch>, id: string) {
    exists j :: 0 <= j < |bs| && bs[j].id == id
  }

  ghost predicate KnownDependencies(bs: seq<Branch>) {
    forall i, d :: 0 <= i < |bs| && d in bs[i].dependencies ==> HasId(bs, d)
  }

  predicate NoSelfDependencies(bs: seq<Branch>) {
    forall i :: 0 <= i < |bs| ==> bs[i].id !in bs[i].dependencies
  }

  predicate Distinct(s: seq<string>) {
    forall a, b :: 0 <= a < b < |s| ==> s[a] != s[b]
  }

  predicate NoRepeatedDependencies(bs: seq<Branch>) {
    forall i :: 0 <= i < |bs| ==> Distinct(bs[i].dependencies)
  }

  /** A topological ranking: dependencies rank strictly below their dependents. */
  predicate Ranks(bs: seq<Branch>, rank: seq<nat>) {
    && |rank| == |bs|
    && forall i, j :: 0 <= i < |bs| && 0 <= j < |bs| && DependsOn(bs, i, j) ==> rank[j] < rank[i]
  }

  ghost predicate Acyclic(bs: seq<Branch>) {
    exists rank :: Ranks(bs, rank)
  }

  ghost predicate WellFormed(bs: seq<Branch>) {
    && UniqueIds(bs)
    && KnownDependencies(bs)
    && NoSelfDependencies(bs)
    && NoRepeatedDependencies(bs)
    && Acyclic(bs)
  }

  // ---------------------------------------------------------------------
  // The validation, as the coordinator runs it

  /** The id-to-position table; a later branch overrides an earlier one with the same id. */
  function Positions(bs: seq<Branch>): (m: map<string, nat>)
    ensures forall d :: d in m ==> m[d] < |bs| && bs[m[d]].id == d
    ensures forall b :: b in bs ==> b.id in m
  {
    if bs == [] then map[]
    else
      var n := |bs| - 1;
      assert bs == bs[..n] + [bs[n]];
      Positions(bs[..n])[bs[n].id := n]
  }

  lemma {:induction false} PositionsSize(bs: seq<Branch>)
    ensures |Positions(bs)| <= |bs|
    ensures |Positions(bs)| == |bs| <==> UniqueIds(bs)
  {
    if bs != [] {
      var n := |bs| - 1;
      var front, last := bs[..n], bs[n];
      assert bs == front + [last];
      var m := Positions(front);
      assert Positions(bs) == m[last.id := n];
      PositionsSize(front);
      UniqueIdsStep(front, last);
      PutSize(m, last.id, n);
    }
  }

  lemma PutSize(m: map<string, nat>, id: string, n: nat)
    ensures |m[id := n]| == if id in m then |m| else |m| + 1
  {
    assert m[id := n].Keys == m.Keys + {id};
  }

  lemma UniqueIdsStep(front: seq<Branch>, last: Branch)
    ensures UniqueIds(front + [last]) <==> UniqueIds(front) && last.id !in Positions(front)
  {
    var bs := front + [last];
    var m := Positions(front);
    if last.id in m {
      assert bs[m[last.id]].id == bs[|front|].id;
    } else if UniqueIds(front) {
      forall i, j | 0 <= i < j < |bs| ensures bs[i].id != bs[j].id {
        assert front[i] in front;
      }
    }
    if UniqueIds(bs) {
      assert forall i :: 0 <= i < |front| ==> bs[i] == front[i];
    }
  }

  /** The per-branch scan for self, unknown and repeated dependencies. */
  method CheckBranch(b: Branch, positions: map<string, nat>) returns (ok: bool)
    ensures ok <==> b.id !in b.dependencies && Distinct(b.dependencies)
                    && forall d :: d in b.dependencies ==> d in positions
  {
    var unique: set<string> := {};
    for k := 0 to |b.dependencies|
      invariant unique == set x | x in b.dependencies[..k]
      invariant b.id !in b.dependencies[..k]
      invariant Distinct(b.dependencies[..k])
      invariant forall d :: d in b.dependencies[..k] ==> d in positions
    {
      var d := b.dependencies[k];
      assert b.dependencies[..k + 1] == b.dependencies[..k] + [d];
      if d == b.id || d !in positions || d in unique {
        if d in unique {
          var a :| 0 <= a < k && b.dependencies[..k][a] == d;
          assert b.dependencies[a] == b.dependencies[k];
        }
        return false;
      }
      unique := unique + {d};
    }
    assert b.dependencies[..|b.dependencies|] == b.dependencies;
    return true;
  }

  /** The chain of branches being visited: each one depends on the next. */
  predicate Chain(bs: seq<Branch>, stack: seq<nat>) {
    && (forall k :: 0 <= k < |stack| ==> stack[k] < |bs|)
    && (forall k :: 0 <= k < |stack| - 1 ==> DependsOn(bs, stack[k], stack[k + 1]))
  }

  lemma {:induction false} ChainDescends(bs: seq<Branch>, stack: seq<nat>, rank: seq<nat>, a: nat, b: nat)
    requires Chain(bs, stack) && Ranks(bs, rank) && a < b < |stack|
    ensures rank[stack[b]] < rank[stack[a]]
    decreases b - a
  {
    assert DependsOn(bs, stack[b - 1], stack[b]);
    if a < b - 1 { ChainDescends(bs, stack, rank, a, b - 1); }
  }

  lemma RepeatInChainIsCycle(bs: seq<Branch>, stack: seq<nat>, a: nat, b: nat)
    requires Chain(bs, stack) && a < b < |stack| && stack[a] == stack[b]
    ensures !Acyclic(bs)
  {
    forall rank | Ranks(bs, rank) ensures false {
      ChainDescends(bs, stack, rank, a, b);
    }
  }

  /** A finishing order: every branch comes after all of its dependencies. */
  predicate Ordered(bs: seq<Branch>, order: seq<nat>) {
    && (forall k :: 0 <= k < |order| ==> order[k] < |bs|)
    && (forall k, l :: 0 <= k < l < |order| ==> order[k] != order[l])
    && forall k, j :: 0 <= k < |order| && 0 <= j < |bs| && DependsOn(bs, order[k], j) ==> j in order[..k]
  }

  lemma {:induction false} BoundedSet(s: set<nat>, n: nat)
    requires forall i :: i in s ==> i < n
    ensures |s| <= n
  {
    if n > 0 {
      BoundedSet(s - {n - 1}, n - 1);
      assert |s| <= |s - {n - 1}| + 1;
    } else {
      assert s == {};
    }
  }

  ghost predicate DependenciesResolved(bs: seq<Branch>, positions: map<string, nat>) {
    && UniqueIds(bs)
    && (forall d :: d in positions ==> positions[d] < |bs| && bs[positions[d]].id == d)
    && (forall i, d :: 0 <= i < |bs| && d in bs[i].dependencies ==> d in positions)
  }

  ghost predicate Lists(s: set<nat>, elements: seq<nat>) {
    forall i: nat :: i in s <==> i in elements
  }

  /** The recursive visit. `order` and `stack` are witnesses: the finishing order of
      the visited set, and the chain of branches in the visiting set. */
  method Visit(index: nat, bs: seq<Branch>, positions: map<string, nat>,
               visiting: set<nat>, visited: set<nat>, ghost stack: seq<nat>, ghost order: seq<nat>)
    returns (ok: bool, visiting': set<nat>, visited': set<nat>, ghost order': seq<nat>)
    requires index < |bs| && DependenciesResolved(bs, positions)
    requires Chain(bs, stack + [index]) && Lists(visiting, stack) && |visiting| == |stack|
    requires Ordered(bs, order) && Lists(visited, order) && visiting !! visited
    ensures ok ==> visiting' == visiting && visited <= visited' && index in visited' && visiting !! visited'
    ensures ok ==> Ordered(bs, order') && Lists(visited', order')
    ensures !ok ==> !Acyclic(bs)
    decreases |bs| - |visiting|
  {
    if index in visited {
      return true, visiting, visited, order;
    }
    if index in visiting {
      ghost var a :| 0 <= a < |stack| && stack[a] == index;
      RepeatInChainIsCycle(bs, stack + [index], a, |stack|);
      return false, visiting, visited, order;
    }
    visiting' := visiting + {index};
    visited' := visited;
    order' := order;
    ghost var stack' := stack + [index];
    assert forall k :: 0 <= k < |stack'| ==> stack'[k] < |bs|;
    assert Lists(visiting', stack');
    BoundedSet(visiting', |bs|);
    var deps := bs[index].dependencies;
    for k := 0 to |deps|
      invariant visiting' == visiting + {index}
      invariant visited <= visited' && visiting' !! visited'
      invariant Ordered(bs, order') && Lists(visited', order')
      invariant forall d :: 0 <= d < k ==> positions[deps[d]] in visited'
    {
      var next := positions[deps[k]];
      assert DependsOn(bs, index, next);
      ChainExtends(bs, stack', next);
      ok, visiting', visited', order' :=
        Visit(next, bs, positions, visiting', visited', stack', order');
      if !ok { return; }
    }
    FinishExtendsOrder(bs, positions, order', index);
    visiting' := visiting' - {index};
    visited' := visited' + {index};
    order' := order' + [index];
    ok := true;
  }

  lemma ChainExtends(bs: seq<Branch>, stack: seq<nat>, next: nat)
    requires Chain(bs, stack) && stack != [] && next < |bs| && DependsOn(bs, stack[|stack| - 1], next)
    ensures Chain(bs, stack + [next])
  {
  }

  lemma FinishExtendsOrder(bs: seq<Branch>, positions: map<string, nat>, order: seq<nat>, index: nat)
    requires DependenciesResolved(bs, positions) && Ordered(bs, order)
    requires index < |bs| && index !in order
    requires forall d :: d in bs[index].dependencies ==> positions[d] in order
    ensures Ordered(bs, order + [index])
  {
    var o := order + [index];
    forall k, j | 0 <= k < |o| && 0 <= j < |bs| && DependsOn(bs, o[k], j) ensures j in o[..k] {
      if k < |order| {
        assert j in order[..k];
        assert o[..k] == order[..k];
      } else {
        assert o[..k] == order;
        assert positions[bs[j].id] == j;
      }
    }
  }

  /** A finishing order of all branches is a ranking. */
  lemma {:induction false} FullOrderRanks(bs: seq<Branch>, order: seq<nat>)
    requires Ordered(bs, order) && forall i :: 0 <= i < |bs| ==> i in order
    ensures Acyclic(bs)
  {
    var place: nat -> nat := i => if i in order then var k :| 0 <= k < |order| && order[k] == i; k else 0;
    var rank := seq(|bs|, place);
    forall i, j | 0 <= i < |bs| && 0 <= j < |bs| && DependsOn(bs, i, j) ensures rank[j] < rank[i] {
      var k := place(i);
      assert order[k] == i;
      assert j in order[..k];
      var l :| 0 <= l < k && order[..k][l] == j;
      assert order[l] == j && order[place(j)] == j;
    }
    assert Ranks(bs, rank);
  }

  /** The field checks: self, unknown and repeated dependencies, branch by branch. */
  method CheckFields(bs: seq<Branch>, positions: map<string, nat>) returns (ok: bool)
    ensures ok <==> NoSelfDependencies(bs) && NoRepeatedDependencies(bs)
                    && forall i, d :: 0 <= i < |bs| && d in bs[i].dependencies ==> d in positions
  {
    for i := 0 to |bs|
      invariant forall k :: 0 <= k < i ==> bs[k].id !in bs[k].dependencies && Distinct(bs[k].dependencies)
      invariant forall k, d :: 0 <= k < i && d in bs[k].dependencies ==> d in positions
    {
      var good := CheckBranch(bs[i], positions);
      if !good { return false; }
    }
    return true;
  }

  /** The depth-first search over every branch. */
  method CheckCycles(bs: seq<Branch>, positions: map<string, nat>) returns (ok: bool)
    requires DependenciesResolved(bs, positions)
    ensures ok <==> Acyclic(bs)
  {
    var visiting: set<nat>, visited: set<nat> := {}, {};
    ghost var order: seq<nat> := [];
    for i := 0 to |bs|
      invariant visiting == {}
      invariant Ordered(bs, order) && Lists(visited, order)
      invariant forall k :: 0 <= k < i ==> k in visited
    {
      ok, visiting, visited, order := Visit(i, bs, positions, visiting, visited, [], order);
      if !ok { return; }
    }
    FullOrderRanks(bs, order);
    return true;
  }

  lemma PositionedIsKnown(bs: seq<Branch>, id: string)
    ensures id in Positions(bs) <==> HasId(bs, id)
  {
  }

  /** validate_dependency_graph: accepts exactly the well-formed graphs. */
  method Validate(bs: seq<Branch>) returns (ok: bool)
    ensures ok <==> WellFormed(bs)
  {
    var positions := Positions(bs);
    PositionsSize(bs);
    forall id ensures id in positions <==> HasId(bs, id) { PositionedIsKnown(bs, id); }
    if |positions| != |bs| { return false; }
    ok := CheckFields(bs, positions);
    if ok { ok := CheckCycles(bs, positions); }
  }
}
