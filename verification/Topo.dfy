/** The topological order in which permissions are pushed down the graph. */
module Topo {
  import opened Options
  import opened Seqs
  import opened BlockGraph
  import opened Reach

  /** A list as bdrv_topological_dfs promises it: no node twice, whole subtrees
      only, and every parent before its children. */
  ghost predicate TopoList(g: Graph, list: seq<NodeId>) {
    && NoDup(list)
    && Elems(list) <= g.nodes.Keys
    && ClosedUnderLinks(g, Elems(list))
    && (forall i, j :: 0 <= i <= j < |list| ==> !Link(g, list[j], list[i]))
  }

  lemma PrependTopo(g: Graph, list: seq<NodeId>, bs: NodeId)
    requires TopoList(g, list) && bs in g.nodes && bs !in list
    requires forall t :: Link(g, bs, t) ==> t in list
    ensures TopoList(g, Prepend(bs, list))
    ensures Elems(Prepend(bs, list)) == Elems(list) + {bs}
  {
    var r := Prepend(bs, list);
    assert r == [bs] + list;
    forall i, j | 0 <= i <= j < |r| ensures !Link(g, r[j], r[i]) {
      assert i == 0 && j > 0 ==> r[j] in Elems(list);
    }
  }

  /** Below a listed node everything is listed. */
  lemma ListedSubtree(g: Graph, list: seq<NodeId>, bs: NodeId)
    requires TopoList(g, list) && bs in list
    ensures ReachSet(g, bs) <= Elems(list)
  {
    forall n | n in ReachSet(g, bs) ensures n in Elems(list) {
      ReachesStaysIn(g, Elems(list), bs, n);
    }
  }

  /** The nodes still open above `bs` are open and distinct above its child `t`. */
  ghost predicate OpenAbove(g: Graph, list: seq<NodeId>, found: set<NodeId>, bs: NodeId) {
    forall n :: n in found && n !in list ==> n != bs && Reaches(g, n, bs)
  }

  lemma DescendToChild(g: Graph, list: seq<NodeId>, found: set<NodeId>, bs: NodeId, t: NodeId)
    requires WF(g) && Acyclic(g) && Link(g, bs, t)
    requires OpenAbove(g, list, found - {bs}, bs)
    ensures OpenAbove(g, list, found, t)
    ensures ReachSet(g, t) <= ReachSet(g, bs) - {bs} && |ReachSet(g, t)| < |ReachSet(g, bs)|
    ensures t in ReachSet(g, t)
  {
    LinkEnds(g, bs, t);
    RankFalls(g, bs, t);
    LinkReaches(g, bs, t);
    ReachSetClosed(g, t);
    forall n | n in found && n !in list ensures n != t && Reaches(g, n, t) {
      if n != bs {
        ReachesTrans(g, n, bs, t);
      }
    }
  }

  /** The subtree of `bs` is `bs` and the subtrees of its children. */
  lemma SubtreeListed(g: Graph, list: seq<NodeId>, bs: NodeId)
    requires WF(g) && bs in g.nodes && TopoList(g, list)
    requires forall t :: Link(g, bs, t) ==> t in list
    ensures ReachSet(g, bs) <= Elems(list) + {bs}
  {
    forall n | n in ReachSet(g, bs) ensures n in Elems(list) + {bs} {
      if n != bs {
        ReachesStep(g, bs, n);
        var t :| Link(g, bs, t) && Reaches(g, t, n);
        ReachesStaysIn(g, Elems(list), t, n);
      }
    }
  }

  /** The first `i` links of a children list lead into `s`. */
  ghost predicate TargetsIn(edges: map<EdgeId, Edge>, es: seq<EdgeId>, i: nat, s: set<NodeId>) {
    forall k :: 0 <= k < i <= |es| ==> TargetIn(edges, es[k], s)
  }

  lemma OneMoreTarget(edges: map<EdgeId, Edge>, es: seq<EdgeId>, i: nat, s: set<NodeId>, t: set<NodeId>)
    requires TargetsIn(edges, es, i, s) && s <= t && i < |es| && TargetIn(edges, es[i], t)
    ensures TargetsIn(edges, es, i + 1, t)
  {
    forall k | 0 <= k < i + 1 ensures TargetIn(edges, es[k], t) {
      assert k < i ==> TargetIn(edges, es[k], s);
    }
  }

  lemma ChildrenListed(g: Graph, bs: NodeId, s: set<NodeId>)
    requires WF(g) && bs in g.nodes && TargetsIn(g.edges, g.children[bs], |g.children[bs]|, s)
    ensures forall t :: Link(g, bs, t) ==> t in s
  {
    forall t | Link(g, bs, t) ensures t in s {
      assert ListsOk(g, bs);
      var e :| ChildOf(g.edges, e, bs) && Points(g.edges, e, t);
      assert e in g.children[bs];
    }
  }

  /** Everything a call of the search promises about its results. */
  ghost predicate DfsDone(g: Graph, list0: seq<NodeId>, found0: set<NodeId>, bs: NodeId,
                          list: seq<NodeId>, found: set<NodeId>) {
    && TopoList(g, list)
    && Elems(list) == Elems(list0) + ReachSet(g, bs)
    && found == found0 + ReachSet(g, bs)
    && Extends(list, list0)
  }

  /** `list` is `list0` with nodes prepended. */
  ghost predicate Extends(list: seq<NodeId>, list0: seq<NodeId>) {
    |list0| <= |list| && list[|list| - |list0|..] == list0
  }

  lemma ExtendsTrans(a: seq<NodeId>, b: seq<NodeId>, c: seq<NodeId>)
    requires Extends(a, b) && Extends(b, c)
    ensures Extends(a, c)
  {
    assert a[|a| - |c|..] == a[|a| - |b|..][|b| - |c|..];
  }

  /** What holds after the first `i` children of `bs` were searched. */
  ghost predicate DfsLoop(g: Graph, list0: seq<NodeId>, found0: set<NodeId>, bs: NodeId,
                          list: seq<NodeId>, found: set<NodeId>, i: nat)
    requires bs in g.children
  {
    && TopoList(g, list)
    && Elems(list0) <= Elems(list) <= Elems(list0) + (ReachSet(g, bs) - {bs})
    && found == found0 + Elems(list) + {bs}
    && TargetsIn(g.edges, g.children[bs], i, Elems(list))
    && Extends(list, list0)
  }

  ghost predicate DfsStart(g: Graph, list: seq<NodeId>, found: set<NodeId>, bs: NodeId) {
    && WF(g) && Acyclic(g) && bs in g.nodes
    && TopoList(g, list) && Elems(list) <= found && OpenAbove(g, list, found, bs)
  }

  lemma DfsChildStart(g: Graph, list0: seq<NodeId>, found0: set<NodeId>, bs: NodeId,
                      list: seq<NodeId>, found: set<NodeId>, i: nat, t: NodeId)
    requires DfsStart(g, list0, found0, bs) && bs !in found0
    requires DfsLoop(g, list0, found0, bs, list, found, i) && Link(g, bs, t)
    ensures DfsStart(g, list, found, t) && |ReachSet(g, t)| < |ReachSet(g, bs)|
  {
    DescendToChild(g, list, found, bs, t);
  }

  lemma DfsChildDone(g: Graph, list0: seq<NodeId>, found0: set<NodeId>, bs: NodeId,
                     list: seq<NodeId>, found: set<NodeId>, i: nat, t: NodeId,
                     list1: seq<NodeId>, found1: set<NodeId>)
    requires DfsStart(g, list0, found0, bs) && bs !in found0
    requires DfsLoop(g, list0, found0, bs, list, found, i)
    requires i < |g.children[bs]| && Points(g.edges, g.children[bs][i], t) && Link(g, bs, t)
    requires DfsDone(g, list, found, t, list1, found1)
    ensures DfsLoop(g, list0, found0, bs, list1, found1, i + 1)
  {
    DescendToChild(g, list, found, bs, t);
    OneMoreTarget(g.edges, g.children[bs], i, Elems(list), Elems(list1));
    ExtendsTrans(list1, list, list0);
  }

  lemma DfsFinish(g: Graph, list0: seq<NodeId>, found0: set<NodeId>, bs: NodeId,
                  list: seq<NodeId>, found: set<NodeId>)
    requires DfsStart(g, list0, found0, bs) && bs !in found0
    requires DfsLoop(g, list0, found0, bs, list, found, |g.children[bs]|)
    ensures DfsDone(g, list0, found0, bs, Prepend(bs, list), found)
  {
    assert TopoList(g, Prepend(bs, list)) && Elems(Prepend(bs, list)) == Elems(list) + {bs}
      && ReachSet(g, bs) <= Elems(list) + {bs} && bs in ReachSet(g, bs)
    by {
      ReachSetClosed(g, bs);
      ChildrenListed(g, bs, Elems(list));
      PrependTopo(g, list, bs);
      SubtreeListed(g, list, bs);
    }
    PrependExtends(bs, list, list0);
    CloseSets(Elems(list0), Elems(list), ReachSet(g, bs), bs);
  }

  lemma PrependExtends(x: NodeId, a: seq<NodeId>, b: seq<NodeId>)
    requires Extends(a, b)
    ensures Extends(Prepend(x, a), b)
  {
    assert Prepend(x, a)[1..] == a;
    ExtendsTrans(Prepend(x, a), a, b);
  }

  lemma CloseSets(l0: set<NodeId>, l: set<NodeId>, r: set<NodeId>, x: NodeId)
    requires l0 <= l <= l0 + (r - {x}) && r <= l + {x} && x in r
    ensures l + {x} == l0 + r
  {
  }

  /** bdrv_topological_dfs. Nodes in `found` but not yet in `list` are those whose
      loop over children is still running further up the call stack. */
  method TopologicalDfs(g: Graph, list0: seq<NodeId>, found0: set<NodeId>, bs: NodeId)
    returns (list: seq<NodeId>, found: set<NodeId>)
    requires DfsStart(g, list0, found0, bs)
    ensures TopoList(g, list)
    ensures Elems(list) == Elems(list0) + ReachSet(g, bs)
    ensures found == found0 + ReachSet(g, bs)
    ensures Extends(list, list0)
    decreases |ReachSet(g, bs)|
  {
    if bs in found0 {
      ListedSubtree(g, list0, bs);
      return list0, found0;
    }
    list, found := list0, found0 + {bs};
    var i := 0;
    while i < |g.children[bs]|
      invariant 0 <= i <= |g.children[bs]|
      invariant DfsLoop(g, list0, found0, bs, list, found, i)
    {
      assert ListsOk(g, bs);
      assert ChildOf(g.edges, g.children[bs][i], bs);
      var t := g.edges[g.children[bs][i]].target.value;
      assert Points(g.edges, g.children[bs][i], t);
      DfsChildStart(g, list0, found0, bs, list, found, i, t);
      ghost var list1, found1 := list, found;
      list, found := TopologicalDfs(g, list, found, t);
      DfsChildDone(g, list0, found0, bs, list1, found1, i, t, list, found);
      i := i + 1;
    }
    DfsFinish(g, list0, found0, bs, list, found);
    list := Prepend(bs, list);
  }
}
