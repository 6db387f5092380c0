/** The permission invariants of the whole graph: what a refresh restores after
    surgery, and why taking a parent away never causes a conflict. */
module PermInvariant {
  import opened Options
  import opened Perms
  import opened Seqs
  import opened BlockGraph
  import opened Reach
  import opened Topo
  import opened Refresh

  /** No conflict among the parents of `n`, and nobody writes to it if it is read-only. */
  ghost predicate NodeOk(g: Graph, n: NodeId)
    requires WF(g) && n in g.nodes
  {
    && ConflictFreeAt(g, n)
    && (Writes(Cumulative(g, n).perm) ==> Writable(g.nodes[n].flags))
  }

  ghost predicate NodesOk(g: Graph)
    requires WF(g)
  {
    forall n :: n in g.nodes ==> NodeOk(g, n)
  }

  /** A link whose grants are set by its owner's driver. */
  predicate Driven(g: Graph, e: EdgeId) {
    && e in g.edges && g.edges[e].parent.Bds? && g.edges[e].target.Some?
    && g.edges[e].parent.node in g.nodes && g.nodes[g.edges[e].parent.node].hasDriver
  }

  /** The link takes at least, and shares at most, what its owner calls for. */
  ghost predicate Covers(g: Graph, e: EdgeId)
    requires WF(g) && Driven(g, e)
  {
    Looser(Wanted(g, e), GrantOf(g.edges[e]))
  }

  ghost predicate LinksCover(g: Graph)
    requires WF(g)
  {
    forall e :: Driven(g, e) ==> Covers(g, e)
  }

  /** Node `n` has in `g` no parents but old ones, with their old grants. */
  ghost predicate NoNewParents(g0: Graph, g: Graph, n: NodeId) {
    forall e :: Points(g.edges, e, n) ==>
                  Points(g0.edges, e, n) && GrantOf(g.edges[e]) == GrantOf(g0.edges[e])
  }

  lemma FewerParentsLooser(g0: Graph, g: Graph, n: NodeId)
    requires WF(g0) && WF(g) && n in g0.nodes && n in g.nodes && NoNewParents(g0, g, n)
    ensures Looser(Cumulative(g, n), Cumulative(g0, n))
    ensures NodeOk(g0, n) && g.nodes[n] == g0.nodes[n] ==> NodeOk(g, n)
  {
    assert ListsOk(g0, n) && ListsOk(g, n);
    TotalMonotone(g.edges, g.parents[n], g0.edges, g0.parents[n]);
  }

  /** Surgery turned `g0` into `g`; nodes outside `list` gained no parent. */
  ghost predicate Outside(g0: Graph, g: Graph, list: seq<NodeId>) {
    forall n :: n in g.nodes && n !in list ==>
                  n in g0.nodes && g.nodes[n] == g0.nodes[n] && NoNewParents(g0, g, n)
  }

  /** A refresh that succeeds leaves every node of the graph free of conflicts,
      not only the nodes it visited. */
  lemma PushKeepsNodesOk(g0: Graph, g: Graph, list: seq<NodeId>, check: Answers)
    requires WF(g0) && WF(g) && NodesOk(g0) && Outside(g0, g, list)
    requires TopoList(g, list) && FirstError(g, list, check) == None
    ensures NodesOk(Pushed(g, list))
  {
    var r := Pushed(g, list);
    PushedChecked(g, list, check);
    PushedExact(g, list);
    forall n | n in r.nodes ensures NodeOk(r, n) {
      if n in list {
        assert NodeError(r, n, check) == None;
      } else {
        NotBelowList(g, list, n);
        SeenSame(g, r, list, n, check);
        FewerParentsLooser(g0, g, n);
      }
    }
  }

  lemma NotBelowList(g: Graph, list: seq<NodeId>, n: NodeId)
    requires TopoList(g, list) && n !in list
    ensures forall x :: x in list ==> !Link(g, x, n)
  {
    assert forall x :: x in list ==> x in Elems(list);
    assert n !in Elems(list);
  }

  /** The link is as in `g0` up to its target, and a forced-shared target is not
      exchanged for one that is not. */
  ghost predicate KeptLink(g0: Graph, g: Graph, e: EdgeId)
    requires Driven(g, e)
  {
    && Driven(g0, e)
    && g.edges[e] == g0.edges[e].(target := g.edges[e].target)
    && g.nodes[g.edges[e].parent.node] == g0.nodes[g.edges[e].parent.node]
    && g0.edges[e].target.value in g0.nodes && g.edges[e].target.value in g.nodes
    && (g0.nodes[g0.edges[e].target.value].forceShare ==> g.nodes[g.edges[e].target.value].forceShare)
  }

  /** Loosening the owner keeps the link covering. */
  lemma KeptLinkCovers(g0: Graph, g: Graph, e: EdgeId)
    requires WF(g0) && WF(g) && Driven(g, e) && KeptLink(g0, g, e) && Covers(g0, e)
    requires Looser(Cumulative(g, g.edges[e].parent.node), Cumulative(g0, g.edges[e].parent.node))
    ensures Covers(g, e)
  {
    var p := g.edges[e].parent.node;
    var t0, t := g0.edges[e].target.value, g.edges[e].target.value;
    assert EdgeOk(g, e);
    ChildPermsMonotone(g.nodes[p].flags, g0.nodes[t0].forceShare, g.edges[e].role,
                       Cumulative(g, p), Cumulative(g0, p));
  }

  /** After a push, links out of listed nodes cover; so the whole graph covers
      exactly when the untouched links do. */
  lemma PushedCovers(g: Graph, list: seq<NodeId>)
    requires WF(g) && TopoList(g, list)
    ensures LinksCover(Pushed(g, list)) <==>
            forall e :: Driven(g, e) && !OutOf(g.edges[e], list) ==> Covers(g, e)
  {
    var r := Pushed(g, list);
    PushedExact(g, list);
    SameShapeLinks(g, r);
    forall e | Driven(g, e)
      ensures Driven(r, e)
      ensures OutOf(g.edges[e], list) ==> Covers(r, e)
      ensures !OutOf(g.edges[e], list) ==> (Covers(r, e) <==> Covers(g, e))
    {
      var p := g.edges[e].parent.node;
      assert SameLink(g.edges[e], r.edges[e]);
      assert ChildOf(g.edges, e, p);
      if p !in list {
        NotBelowList(g, list, p);
        SeenSame(g, r, list, p, Answers((_, _) => true, (_, _) => true));
      }
    }
    assert forall e :: Driven(r, e) ==> e in g.edges && SameLink(g.edges[e], r.edges[e]);
  }

  /** So covering survives surgery that only keeps links, or drops them, outside
      the refreshed list. */
  lemma PushKeepsLinksCover(g0: Graph, g: Graph, list: seq<NodeId>)
    requires WF(g0) && WF(g) && LinksCover(g0) && Outside(g0, g, list) && TopoList(g, list)
    requires forall e :: Driven(g, e) && !OutOf(g.edges[e], list) ==> KeptLink(g0, g, e)
    ensures LinksCover(Pushed(g, list))
  {
    forall e | Driven(g, e) && !OutOf(g.edges[e], list) ensures Covers(g, e) {
      FewerParentsLooser(g0, g, g.edges[e].parent.node);
      KeptLinkCovers(g0, g, e);
    }
    PushedCovers(g, list);
  }

  // ---------------------------------------------------------------------------
  // Loosening.

  /** `g` has only links of `g0`, at the same ends, each at least as loose. */
  ghost predicate LoosenedFrom(g0: Graph, g: Graph) {
    && g.nodes == g0.nodes
    && (forall e :: e in g.edges ==> e in g0.edges && SameLink(g0.edges[e], g.edges[e])
                                      && Looser(GrantOf(g.edges[e]), GrantOf(g0.edges[e])))
  }

  lemma LoosenedAt(g0: Graph, g: Graph, n: NodeId)
    requires WF(g0) && WF(g) && LoosenedFrom(g0, g) && NodesOk(g0) && n in g.nodes
    ensures NodeOk(g, n) && Looser(Cumulative(g, n), Cumulative(g0, n))
  {
    assert NodeOk(g0, n);
    assert forall e :: Points(g.edges, e, n) ==> Points(g0.edges, e, n);
    assert ListsOk(g0, n) && ListsOk(g, n);
    TotalMonotone(g.edges, g.parents[n], g0.edges, g0.parents[n]);
    forall a, b | Points(g.edges, a, n) && Points(g.edges, b, n) && a != b
      ensures Sub(g.edges[b].perm, g.edges[a].shared)
    {
      assert Points(g0.edges, a, n) && Points(g0.edges, b, n);
    }
  }

  lemma WantedLoosened(g0: Graph, g: Graph, n: NodeId, e: EdgeId)
    requires WF(g0) && WF(g) && n in g.nodes && n in g0.nodes && g.nodes == g0.nodes
    requires ChildOf(g.edges, e, n) && g.nodes[n].hasDriver
    requires e in g0.edges && SameLink(g0.edges[e], g.edges[e]) && Driven(g0, e) && Covers(g0, e)
    requires Looser(Cumulative(g, n), Cumulative(g0, n))
    ensures Looser(Wanted(g, e), GrantOf(g0.edges[e]))
  {
    assert EdgeOk(g, e);
    ChildPermsMonotone(g.nodes[n].flags, g.nodes[g.edges[e].target.value].forceShare,
                       g.edges[e].role, Cumulative(g, n), Cumulative(g0, n));
  }

  lemma RefreshLoosens(g0: Graph, g: Graph, n: NodeId)
    requires WF(g0) && WF(g) && LoosenedFrom(g0, g) && NodesOk(g0) && LinksCover(g0) && n in g.nodes
    ensures LoosenedFrom(g0, RefreshNode(g, n))
  {
    LoosenedAt(g0, g, n);
    var r := RefreshNode(g, n);
    forall e | e in r.edges
      ensures e in g0.edges && SameLink(g0.edges[e], r.edges[e])
      ensures Looser(GrantOf(r.edges[e]), GrantOf(g0.edges[e]))
    {
      assert SameLink(g0.edges[e], g.edges[e]);
      if ChildOf(g.edges, e, n) && g.nodes[n].hasDriver {
        assert Driven(g0, e);
        WantedLoosened(g0, g, n, e);
      }
    }
  }

  /** Loosening never conflicts: a refresh of a graph that only lost links, or had
      them loosened, can be refused for nothing but image-size alignment or by a
      driver callback; and every grant it sets is at least as loose as before. */
  lemma {:induction false} LooseningNeverConflicts(g0: Graph, g: Graph, list: seq<NodeId>, check: Answers)
    requires WF(g0) && WF(g) && LoosenedFrom(g0, g) && NodesOk(g0) && LinksCover(g0)
    requires Elems(list) <= g.nodes.Keys
    ensures FirstError(g, list, check) in {None, Some(Unaligned), Some(DriverRefused)}
    ensures LoosenedFrom(g0, Pushed(g, list))
    decreases |list|
  {
    if list != [] {
      assert list[0] in Elems(list);
      assert Elems(list[1..]) <= Elems(list);
      LoosenedAt(g0, g, list[0]);
      RefreshLoosens(g0, g, list[0]);
      LooseningNeverConflicts(g0, RefreshNode(g, list[0]), list[1..], check);
    }
  }

  /** The image size or the driver objects to what will be in force on `n`. */
  predicate Objects(node: Node, n: NodeId, h: Grant, check: Answers) {
    (Writes(h.perm) && !h.perm.resize && !node.sizeAligned) || (node.hasDriver && !check.accepts(n, h))
  }

  /** So such a refresh succeeds if and only if nobody objects to the final grants. */
  lemma LooseningSucceedsIff(g0: Graph, g: Graph, list: seq<NodeId>, check: Answers)
    requires WF(g0) && WF(g) && LoosenedFrom(g0, g) && NodesOk(g0) && LinksCover(g0)
    requires TopoList(g, list)
    ensures FirstError(g, list, check) == None <==>
              forall n :: n in list ==> !Objects(g.nodes[n], n, Cumulative(Pushed(g, list), n), check)
  {
    hide RefreshNode;
    var r := Pushed(g, list);
    LooseningNeverConflicts(g0, g, list, check);
    forall n | n in list
      ensures NodeError(r, n, check) == None <==> !Objects(g.nodes[n], n, Cumulative(r, n), check)
    {
      assert n in Elems(list);
      LoosenedAt(g0, r, n);
    }
    if FirstError(g, list, check) == None {
      PushedChecked(g, list, check);
    } else {
      FailureShows(g, list, check);
    }
  }

  /** List order does not matter: graphs with the same links satisfy the same
      invariants. */
  lemma SameLinksSameInvariants(g: Graph, h: Graph)
    requires WF(g) && WF(h) && h.nodes == g.nodes && h.edges == g.edges
    ensures forall n :: n in g.nodes ==> Cumulative(h, n) == Cumulative(g, n)
    ensures Acyclic(g) ==> Acyclic(h)
    ensures NodesOk(g) ==> NodesOk(h)
    ensures LinksCover(g) ==> LinksCover(h)
  {
    forall n | n in g.nodes
      ensures Cumulative(h, n) == Cumulative(g, n)
      ensures NodeOk(g, n) ==> NodeOk(h, n)
    {
      FewerParentsLooser(g, h, n);
      FewerParentsLooser(h, g, n);
    }
    if Acyclic(g) {
      forall a, b | Link(h, a, b) ensures !Reaches(h, b, a) {
        assert Link(g, a, b) by {
          var e :| ChildOf(h.edges, e, a) && Points(h.edges, e, b);
          assert ChildOf(g.edges, e, a) && Points(g.edges, e, b);
        }
        if Reaches(h, b, a) {
          forall x, y | Link(h, x, y) ensures Link(g, x, y) {
            var e :| ChildOf(h.edges, e, x) && Points(h.edges, e, y);
            assert ChildOf(g.edges, e, x) && Points(g.edges, e, y);
          }
          ReachesMono(h, g, b, a);
        }
      }
    }
    if LinksCover(g) {
      forall e | Driven(h, e) ensures Covers(h, e) {
        assert Driven(g, e) && Covers(g, e) && EdgeOk(g, e);
      }
    }
  }

  /** A node without links can go. */
  lemma DropNodeKeeps(g: Graph, h: Graph, n: NodeId)
    requires WF(g) && n in g.nodes
    requires h == Graph(g.nodes - {n}, g.edges, g.parents - {n}, g.children - {n})
    requires forall e :: e in g.edges ==> g.edges[e].target != Some(n) && g.edges[e].parent != Bds(n)
    ensures WF(h)
    ensures Acyclic(g) ==> Acyclic(h)
    ensures NodesOk(g) ==> NodesOk(h)
    ensures LinksCover(g) ==> LinksCover(h)
  {
    assert WF(h) by {
      forall e | e in h.edges ensures EdgeOk(h, e) { assert EdgeOk(g, e); }
      forall m | m in h.nodes ensures ListsOk(h, m) { assert ListsOk(g, m); }
    }
    forall a, b ensures Link(h, a, b) <==> Link(g, a, b) {
    }
    if Acyclic(g) {
      forall a, b | Link(h, a, b) ensures !Reaches(h, b, a) {
        if Reaches(h, b, a) {
          ReachesMono(h, g, b, a);
        }
      }
    }
    forall m | m in h.nodes
      ensures Cumulative(h, m) == Cumulative(g, m) && (NodeOk(g, m) ==> NodeOk(h, m))
    {
      assert h.parents[m] == g.parents[m] && h.nodes[m] == g.nodes[m];
    }
    forall e | Driven(h, e) && LinksCover(g) ensures Covers(h, e) {
      assert EdgeOk(g, e) && Driven(g, e) && Covers(g, e);
    }
  }

  /** And a node without links can come. */
  lemma AddNodeKeeps(g: Graph, h: Graph, n: NodeId, node: Node)
    requires WF(g) && n !in g.nodes
    requires h == Graph(g.nodes[n := node], g.edges, g.parents[n := []], g.children[n := []])
    ensures WF(h)
    ensures Acyclic(g) ==> Acyclic(h)
    ensures NodesOk(g) ==> NodesOk(h)
    ensures LinksCover(g) ==> LinksCover(h)
  {
    AddNodeWF(g, h, n, node);
    hide Acyclic;
    if Acyclic(g) {
      AddNodeAcyclic(g, h);
    }
    forall m | m in g.nodes
      ensures Cumulative(h, m) == Cumulative(g, m) && (NodeOk(g, m) ==> NodeOk(h, m))
    {
      assert h.parents[m] == g.parents[m] && h.nodes[m] == g.nodes[m];
    }
    assert NodeOk(h, n) by {
      assert h.parents[n] == [] && ListsOk(h, n);
    }
    forall e | Driven(h, e) && LinksCover(g) ensures Covers(h, e) {
      assert EdgeOk(g, e) && Driven(g, e) && Covers(g, e);
    }
  }

  lemma AddNodeWF(g: Graph, h: Graph, n: NodeId, node: Node)
    requires WF(g) && n !in g.nodes
    requires h == Graph(g.nodes[n := node], g.edges, g.parents[n := []], g.children[n := []])
    ensures WF(h)
  {
    forall e | e in g.edges ensures g.edges[e].target != Some(n) && g.edges[e].parent != Bds(n) {
      assert EdgeOk(g, e);
    }
    forall e | e in h.edges ensures EdgeOk(h, e) { assert EdgeOk(g, e); }
    forall m | m in h.nodes ensures ListsOk(h, m) { assert m != n ==> ListsOk(g, m); }
  }

  lemma AddNodeAcyclic(g: Graph, h: Graph)
    requires h.edges == g.edges && Acyclic(g)
    ensures Acyclic(h)
  {
    forall a, b ensures Link(h, a, b) <==> Link(g, a, b) {
    }
    forall a, b | Link(h, a, b) ensures !Reaches(h, b, a) {
      if Reaches(h, b, a) {
        ReachesMono(h, g, b, a);
      }
    }
  }

  /** Freezing a link changes nothing the invariants speak of. */
  lemma FrozenKeeps(g: Graph, h: Graph, e: EdgeId, b: bool)
    requires WF(g) && e in g.edges && h == g.(edges := g.edges[e := g.edges[e].(frozen := b)])
    ensures WF(h)
    ensures Acyclic(g) ==> Acyclic(h)
    ensures NodesOk(g) ==> NodesOk(h)
    ensures LinksCover(g) ==> LinksCover(h)
  {
    assert WF(h) by {
      forall d | d in h.edges ensures EdgeOk(h, d) { assert EdgeOk(g, d); }
      SameEndsWF(g, h);
    }
    if Acyclic(g) {
      forall x, y | Link(h, x, y) ensures !Reaches(h, y, x) {
        assert forall a, b :: Link(h, a, b) ==> Link(g, a, b) by {
          forall a, b | Link(h, a, b) ensures Link(g, a, b) {
            var d :| ChildOf(h.edges, d, a) && Points(h.edges, d, b);
            assert ChildOf(g.edges, d, a) && Points(g.edges, d, b);
          }
        }
        if Reaches(h, y, x) {
          ReachesMono(h, g, y, x);
        }
      }
    }
    forall n | n in g.nodes
      ensures Cumulative(h, n) == Cumulative(g, n) && (NodeOk(g, n) ==> NodeOk(h, n))
    {
      FewerParentsLooser(g, h, n);
      FewerParentsLooser(h, g, n);
    }
    forall d | Driven(h, d) && LinksCover(g) ensures Covers(h, d) {
      assert EdgeOk(g, d) && Driven(g, d) && Covers(g, d);
    }
  }
}
