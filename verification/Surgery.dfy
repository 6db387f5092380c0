/** The graph surgeries as values: attaching a link, moving links from one node to
    another, taking a link away. For each: no cycle appears, and after the refresh
    that follows it the permission invariants hold again. */
module Surgery {
  import opened Options
  import opened Perms
  import opened Seqs
  import opened BlockGraph
  import opened Reach
  import opened Topo
  import opened Refresh
  import opened PermInvariant

  /** Fewer links keep the graph acyclic. */
  lemma AcyclicFewerLinks(g: Graph, h: Graph)
    requires Acyclic(g) && forall x, y :: Link(h, x, y) ==> Link(g, x, y)
    ensures Acyclic(h)
  {
    forall x, y | Link(h, x, y) ensures !Reaches(h, y, x) {
      if Reaches(h, y, x) {
        ReachesMono(h, g, y, x);
      }
    }
  }

  lemma PushedAcyclic(g: Graph, list: seq<NodeId>)
    requires WF(g) && Elems(list) <= g.nodes.Keys && Acyclic(g)
    ensures Acyclic(Pushed(g, list))
  {
    SameShapeLinks(g, Pushed(g, list));
    AcyclicFewerLinks(g, Pushed(g, list));
  }

  // ---------------------------------------------------------------------------
  // A new link.

  ghost predicate NewLinkOk(g: Graph, e: EdgeId, c: Edge, child: NodeId) {
    && WF(g) && e !in g.edges && c.target == None && child in g.nodes
    && (c.parent.Bds? ==> c.parent.node in g.nodes && ValidRole(c.role))
  }

  /** `h` is `g` with the new link `e` in place. */
  ghost predicate Attached(g: Graph, h: Graph, e: EdgeId, c: Edge, child: NodeId) {
    && NewLinkOk(g, e, c, child)
    && WF(h) && h.nodes == g.nodes && h.edges == g.edges[e := c.(target := Some(child))]
  }

  lemma AttachedLinks(g: Graph, h: Graph, e: EdgeId, c: Edge, child: NodeId)
    requires Attached(g, h, e, c, child)
    ensures forall x, y :: Link(g, x, y) ==> Link(h, x, y)
    ensures forall x, y :: Link(h, x, y) ==> Link(g, x, y) || (c.parent == Bds(x) && y == child)
  {
    forall x, y | Link(g, x, y) ensures Link(h, x, y) {
      var d :| ChildOf(g.edges, d, x) && Points(g.edges, d, y);
      assert ChildOf(h.edges, d, x) && Points(h.edges, d, y);
    }
    forall x, y | Link(h, x, y) ensures Link(g, x, y) || (c.parent == Bds(x) && y == child) {
      var d :| ChildOf(h.edges, d, x) && Points(h.edges, d, y);
      if d != e {
        assert ChildOf(g.edges, d, x) && Points(g.edges, d, y);
      }
    }
  }

  /** bdrv_attach_child_noperm's cycle test is exact: the new link keeps the graph
      acyclic if and only if the child does not reach the parent. */
  lemma AttachedAcyclic(g: Graph, h: Graph, e: EdgeId, c: Edge, child: NodeId)
    requires Attached(g, h, e, c, child) && Acyclic(g)
    ensures Acyclic(h) <==> (c.parent.Bds? ==> !Reaches(g, child, c.parent.node))
  {
    AttachedLinks(g, h, e, c, child);
    if !c.parent.Bds? {
      AcyclicFewerLinks(g, h);
    } else {
      var p := c.parent.node;
      if Reaches(g, child, p) {
        assert ChildOf(h.edges, e, p) && Points(h.edges, e, child);
        CyclicWithBadLink(g, h, p, child);
      } else {
        AcyclicWithNewLink(g, h, p, child);
      }
    }
  }

  lemma AttachedOutside(g: Graph, h: Graph, e: EdgeId, c: Edge, child: NodeId, list: seq<NodeId>)
    requires Attached(g, h, e, c, child) && child in list && (c.parent.Bds? ==> c.parent.node in list)
    ensures Outside(g, h, list)
    ensures forall d :: Driven(h, d) && !OutOf(h.edges[d], list) ==> KeptLink(g, h, d)
  {
    forall n | n in h.nodes && n !in list ensures NoNewParents(g, h, n) {
    }
    forall d | Driven(h, d) && !OutOf(h.edges[d], list) ensures KeptLink(g, h, d) {
      assert d != e;
      assert EdgeOk(g, d);
    }
  }

  /** Attach, refresh from a list that holds the child and the parent: the whole
      graph satisfies the invariants again. */
  lemma AttachRefreshed(g: Graph, h: Graph, e: EdgeId, c: Edge, child: NodeId, list: seq<NodeId>, check: Answers)
    requires Attached(g, h, e, c, child) && NodesOk(g)
    requires TopoList(h, list) && child in list && (c.parent.Bds? ==> c.parent.node in list)
    requires FirstError(h, list, check) == None
    ensures NodesOk(Pushed(h, list))
    ensures LinksCover(g) ==> LinksCover(Pushed(h, list))
  {
    AttachedOutside(g, h, e, c, child, list);
    PushKeepsNodesOk(g, h, list, check);
    if LinksCover(g) {
      PushKeepsLinksCover(g, h, list);
    }
  }

  // ---------------------------------------------------------------------------
  // A link taken away.

  /** Links other than `e` are as in `g`; `e` is gone or points nowhere. */
  ghost predicate Without(g: Graph, h: Graph, e: EdgeId) {
    && WF(g) && WF(h) && h.nodes == g.nodes
    && (e in h.edges ==> h.edges[e].target == None)
    && h.edges - {e} == g.edges - {e}
  }

  lemma WithoutFacts(g: Graph, h: Graph, e: EdgeId)
    requires Without(g, h, e)
    ensures forall d :: d != e ==> (d in h.edges <==> d in g.edges) && (d in g.edges ==> h.edges[d] == g.edges[d])
    ensures forall x, y :: Link(h, x, y) ==> Link(g, x, y)
    ensures forall n :: NoNewParents(g, h, n)
    ensures forall d :: Driven(h, d) ==> KeptLink(g, h, d)
    ensures Acyclic(g) ==> Acyclic(h)
  {
    forall d | d != e
      ensures d in h.edges <==> d in g.edges
      ensures d in g.edges ==> h.edges[d] == g.edges[d]
    {
      assert d in h.edges <==> d in h.edges - {e};
      assert d in g.edges <==> d in g.edges - {e};
      if d in g.edges {
        assert (h.edges - {e})[d] == (g.edges - {e})[d];
      }
    }
    forall x, y | Link(h, x, y) ensures Link(g, x, y) {
      var d :| ChildOf(h.edges, d, x) && Points(h.edges, d, y);
      assert ChildOf(g.edges, d, x) && Points(g.edges, d, y);
    }
    forall d | Driven(h, d) ensures KeptLink(g, h, d) {
      assert EdgeOk(g, d);
    }
    if Acyclic(g) {
      AcyclicFewerLinks(g, h);
    }
  }

  lemma WithoutKeeps(g: Graph, h: Graph, e: EdgeId)
    requires Without(g, h, e)
    ensures NodesOk(g) ==> NodesOk(h)
    ensures LinksCover(g) ==> LinksCover(h)
  {
    WithoutFacts(g, h, e);
    forall n | n in h.nodes && NodesOk(g) ensures NodeOk(h, n) {
      FewerParentsLooser(g, h, n);
    }
    forall d | Driven(h, d) && LinksCover(g) ensures Covers(h, d) {
      FewerParentsLooser(g, h, h.edges[d].parent.node);
      KeptLinkCovers(g, h, d);
    }
  }

  // ---------------------------------------------------------------------------
  // Links moved from one node to another.

  function MoveEdges(edges: map<EdgeId, Edge>, moved: set<EdgeId>, to: NodeId): map<EdgeId, Edge> {
    map e | e in edges :: if e in moved then edges[e].(target := Some(to)) else edges[e]
  }

  /** `h` is `g` with the links `moved`, all of them parents of `from` that may be
      moved, pointing at `to` instead. */
  ghost predicate MovedFrom(g: Graph, h: Graph, from: NodeId, to: NodeId, moved: set<EdgeId>) {
    && WF(g) && WF(h) && h.nodes == g.nodes && from in g.nodes && to in g.nodes && from != to
    && (forall e :: e in moved ==> Points(g.edges, e, from) && Movable(g, e, to))
    && h.edges == MoveEdges(g.edges, moved, to)
  }

  /** The test rerun on the changing graph answers as on the original one: nothing
      below `to` is ever moved. */
  lemma MovedReach(g: Graph, h: Graph, from: NodeId, to: NodeId, moved: set<EdgeId>)
    requires MovedFrom(g, h, from, to, moved)
    ensures forall n :: n in g.nodes ==> (Reaches(h, to, n) <==> Reaches(g, to, n))
  {
    ReachSetClosed(g, to);
    ReachSetClosed(h, to);
    var r, r' := ReachSet(g, to), ReachSet(h, to);
    forall a, b | a in r && Link(h, a, b) ensures b in r {
      var e :| ChildOf(h.edges, e, a) && Points(h.edges, e, b);
      assert e !in moved;
      assert ChildOf(g.edges, e, a) && Points(g.edges, e, b);
    }
    forall n | n in r' ensures n in r {
      ReachesStaysIn(h, r, to, n);
    }
    forall a, b | a in r' && Link(g, a, b) ensures b in r' {
      var e :| ChildOf(g.edges, e, a) && Points(g.edges, e, b);
      assert e !in moved;
      assert ChildOf(h.edges, e, a) && Points(h.edges, e, b);
      assert Link(h, a, b);
    }
    forall n | n in r ensures n in r' {
      ReachesStaysIn(g, r', to, n);
    }
    forall n | n in g.nodes ensures Reaches(h, to, n) <==> Reaches(g, to, n) {
      assert n in r <==> n in r';
    }
  }

  /** All parents of `from` that may be moved to `to`. */
  ghost function MovableParents(g: Graph, from: NodeId, to: NodeId): set<EdgeId> {
    set e | e in g.edges && Points(g.edges, e, from) && Movable(g, e, to)
  }

  lemma MoveOneMore(g: Graph, h: Graph, k: Graph, from: NodeId, to: NodeId, moved: set<EdgeId>, e: EdgeId)
    requires MovedFrom(g, h, from, to, moved) && e !in moved && Points(g.edges, e, from) && Movable(g, e, to)
    requires WF(k) && k.nodes == g.nodes && k.edges == h.edges[e := h.edges[e].(target := Some(to))]
    ensures MovedFrom(g, k, from, to, moved + {e})
  {
    assert k.edges == MoveEdges(g.edges, moved + {e}, to);
  }

  lemma MovableOnMoved(g: Graph, h: Graph, from: NodeId, to: NodeId, moved: set<EdgeId>, e: EdgeId)
    requires MovedFrom(g, h, from, to, moved) && e in g.edges
    ensures Movable(h, e, to) <==> Movable(g, e, to)
  {
    MovedReach(g, h, from, to, moved);
    assert EdgeOk(g, e);
  }

  /** bdrv_replace_node_noperm: one more link moved keeps the graph acyclic. */
  lemma MoveOneAcyclic(h: Graph, k: Graph, e: EdgeId, to: NodeId)
    requires WF(h) && WF(k) && Acyclic(h) && e in h.edges && h.edges[e].target.Some? && Movable(h, e, to)
    requires k.edges == h.edges[e := h.edges[e].(target := Some(to))]
    ensures Acyclic(k)
  {
    var p := h.edges[e].parent;
    forall x, y | Link(k, x, y) ensures Link(h, x, y) || (p == Bds(x) && y == to) {
      var d :| ChildOf(k.edges, d, x) && Points(k.edges, d, y);
      if d != e {
        assert ChildOf(h.edges, d, x) && Points(h.edges, d, y);
      }
    }
    if p.Bds? {
      AcyclicWithNewLink(h, k, p.node, to);
    } else {
      AcyclicFewerLinks(h, k);
    }
  }

  /** Owners of moved links lie neither below `from` nor below `to`. */
  lemma MovedOwnersOutside(g: Graph, h: Graph, from: NodeId, to: NodeId, moved: set<EdgeId>, e: EdgeId)
    requires MovedFrom(g, h, from, to, moved) && Acyclic(h) && Acyclic(g) && e in moved && g.edges[e].parent.Bds?
    ensures !Reaches(h, to, g.edges[e].parent.node)
    ensures !Reaches(h, from, g.edges[e].parent.node)
  {
    var p := g.edges[e].parent.node;
    assert EdgeOk(g, e);
    MovedReach(g, h, from, to, moved);
    var r := ReachSet(g, from);
    ReachSetClosed(g, from);
    ReachesSelf(g, from);
    forall d, a | d in moved && g.edges[d].parent == Bds(a) ensures a !in r {
      assert ChildOf(g.edges, d, a) && Points(g.edges, d, from);
      assert Link(g, a, from);
    }
    forall a, b | a in r && Link(h, a, b) ensures b in r {
      var d :| ChildOf(h.edges, d, a) && Points(h.edges, d, b);
      assert ChildOf(g.edges, d, a) && Points(g.edges, d, b);
    }
    if Reaches(h, from, p) {
      ReachesStaysIn(h, r, from, p);
    }
  }

  /** The sharing of a moved link still fits its new target. */
  ghost predicate SharingFits(g: Graph, e: EdgeId, to: NodeId)
    requires WF(g) && Driven(g, e) && to in g.nodes
  {
    assert EdgeOk(g, e);
    var p := g.edges[e].parent.node;
    Sub(g.edges[e].shared,
        ChildPerms(g.nodes[p].flags, g.nodes[to].forceShare, g.edges[e].role, Cumulative(g, p)).shared)
  }

  /** Unless a forced-shared node gives way to one that is not, it always fits. */
  lemma SharingFitsUnlessForced(g: Graph, e: EdgeId, to: NodeId)
    requires WF(g) && Driven(g, e) && to in g.nodes && Covers(g, e) && EdgeOk(g, e)
    requires g.nodes[g.edges[e].target.value].forceShare ==> g.nodes[to].forceShare
    ensures SharingFits(g, e, to)
  {
  }

  /** `h` is `g` with `moved` redirected from `from` to `to` and possibly new links
      out of refreshed nodes; owners of moved links are not refreshed. */
  ghost predicate MoveOnly(g: Graph, h: Graph, from: NodeId, to: NodeId, moved: set<EdgeId>, list: seq<NodeId>) {
    && WF(g) && WF(h) && h.nodes == g.nodes && from in list && to in list && to in g.nodes
    && (forall e :: e in g.edges ==> e in h.edges && h.edges[e] == MoveEdges(g.edges, moved, to)[e])
    && (forall e :: e in h.edges && e !in g.edges && h.edges[e].parent.Bds? ==> OutOf(h.edges[e], list))
    && (forall e :: e in h.edges && e !in g.edges && h.edges[e].target.Some? ==> h.edges[e].target.value in list)
    && (forall e :: e in moved ==> Points(g.edges, e, from) && !OutOf(g.edges[e], list))
  }

  lemma MoveOnlyOutside(g: Graph, h: Graph, from: NodeId, to: NodeId, moved: set<EdgeId>, list: seq<NodeId>)
    requires MoveOnly(g, h, from, to, moved, list)
    ensures Outside(g, h, list)
    ensures forall p :: p in g.nodes && p !in list ==> Cumulative(h, p) == Cumulative(g, p)
  {
    forall n | n in h.nodes && n !in list
      ensures NoNewParents(g, h, n) && NoNewParents(h, g, n)
    {
      forall e | Points(h.edges, e, n) ensures Points(g.edges, e, n) && GrantOf(g.edges[e]) == GrantOf(h.edges[e]) {
        assert e in g.edges;
      }
    }
    forall p | p in g.nodes && p !in list ensures Cumulative(h, p) == Cumulative(g, p) {
      FewerParentsLooser(g, h, p);
      FewerParentsLooser(h, g, p);
    }
  }

  lemma MovedLinkCovers(g: Graph, h: Graph, from: NodeId, to: NodeId, moved: set<EdgeId>, list: seq<NodeId>, e: EdgeId)
    requires MoveOnly(g, h, from, to, moved, list) && LinksCover(g)
    requires Driven(h, e) && !OutOf(h.edges[e], list)
    ensures Driven(g, e)
    ensures Covers(h, e) <==> (e in moved ==> SharingFits(g, e, to))
  {
    MoveOnlyOutside(g, h, from, to, moved, list);
    assert e in g.edges && EdgeOk(g, e);
    assert Covers(g, e);
  }

  ghost predicate AllSharingFits(g: Graph, moved: set<EdgeId>, to: NodeId)
    requires WF(g) && to in g.nodes
  {
    forall e :: e in moved && Driven(g, e) ==> SharingFits(g, e, to)
  }

  lemma MovedLinksCover(g: Graph, h: Graph, from: NodeId, to: NodeId, moved: set<EdgeId>, list: seq<NodeId>)
    requires MoveOnly(g, h, from, to, moved, list) && LinksCover(g)
    ensures (forall e :: Driven(h, e) && !OutOf(h.edges[e], list) ==> Covers(h, e)) <==> AllSharingFits(g, moved, to)
  {
    if AllSharingFits(g, moved, to) {
      forall e | Driven(h, e) && !OutOf(h.edges[e], list) ensures Covers(h, e) {
        MovedLinkCovers(g, h, from, to, moved, list, e);
      }
    } else {
      var e :| e in moved && Driven(g, e) && !SharingFits(g, e, to);
      assert h.edges[e] == g.edges[e].(target := Some(to));
      assert Driven(h, e) && !OutOf(h.edges[e], list);
      MovedLinkCovers(g, h, from, to, moved, list, e);
    }
  }

  /** After links were moved and permissions refreshed, no node is in conflict; and
      every link still covers what its owner calls for if and only if the sharing
      of each moved link fits its new target. */
  lemma MoveRefreshed(g: Graph, h: Graph, from: NodeId, to: NodeId, moved: set<EdgeId>, list: seq<NodeId>,
                      check: Answers)
    requires MoveOnly(g, h, from, to, moved, list) && NodesOk(g)
    requires TopoList(h, list) && FirstError(h, list, check) == None
    ensures NodesOk(Pushed(h, list))
    ensures LinksCover(g) ==> (LinksCover(Pushed(h, list)) <==> AllSharingFits(g, moved, to))
  {
    assert NodesOk(Pushed(h, list)) by {
      MoveOnlyOutside(g, h, from, to, moved, list);
      PushKeepsNodesOk(g, h, list, check);
    }
    if LinksCover(g) {
      PushedCovers(h, list);
      MovedLinksCover(g, h, from, to, moved, list);
    }
  }

  // ---------------------------------------------------------------------------
  // A grant changed by its owner.

  /** `h` is `g` with a new grant on link `e`. */
  ghost predicate Regranted(g: Graph, h: Graph, e: EdgeId, w: Grant) {
    && WF(g) && WF(h) && e in g.edges && g.edges[e].target.Some?
    && h == g.(edges := g.edges[e := g.edges[e].(perm := w.perm, shared := w.shared)])
  }

  lemma RegrantedOutside(g: Graph, h: Graph, e: EdgeId, w: Grant, n: NodeId)
    requires Regranted(g, h, e, w) && n in g.nodes && g.edges[e].target != Some(n)
    ensures NoNewParents(g, h, n) && Cumulative(h, n) == Cumulative(g, n)
  {
    assert NoNewParents(h, g, n);
    FewerParentsLooser(g, h, n);
    FewerParentsLooser(h, g, n);
  }

  lemma RegrantedShape(g: Graph, h: Graph, e: EdgeId, w: Grant)
    requires Regranted(g, h, e, w)
    ensures SameShape(g, h) && (Acyclic(g) ==> Acyclic(h))
    ensures Looser(w, GrantOf(g.edges[e])) ==> LoosenedFrom(g, h)
  {
    assert SameShape(g, h);
    SameShapeLinks(g, h);
    if Acyclic(g) {
      AcyclicFewerLinks(g, h);
    }
  }

  /** A user that changes its own grant, or a node that takes what it needs, leaves
      every link covering once the node below was refreshed. */
  lemma RegrantedCovers(g: Graph, h: Graph, e: EdgeId, w: Grant, list: seq<NodeId>)
    requires Regranted(g, h, e, w) && Acyclic(g) && LinksCover(g) && TopoList(h, list)
    requires Elems(list) == ReachSet(h, g.edges[e].target.value)
    requires Driven(g, e) ==> Looser(Wanted(g, e), w)
    ensures LinksCover(Pushed(h, list))
  {
    var t := g.edges[e].target.value;
    RegrantedShape(g, h, e, w);
    assert EdgeOk(g, e);
    ReachSetClosed(h, t);
    assert t in Elems(list);
    forall d | Driven(h, d) && !OutOf(h.edges[d], list) ensures Covers(h, d) {
      assert EdgeOk(g, d) && Driven(g, d) && Covers(g, d);
      RegrantedOutside(g, h, e, w, g.edges[d].parent.node);
    }
    PushedCovers(h, list);
  }

  /** The regranted link itself is not refreshed, nor is what its owner calls for on it. */
  lemma RegrantedLink(g: Graph, h: Graph, r: Graph, e: EdgeId, w: Grant)
    requires Regranted(g, h, e, w) && Acyclic(g) && Driven(g, e)
    requires Refreshed(h, r, ReachSet(h, g.edges[e].target.value))
    ensures Driven(r, e) && (Covers(r, e) <==> Looser(Wanted(g, e), w))
  {
    var p, t := g.edges[e].parent.node, g.edges[e].target.value;
    RegrantedShape(g, h, e, w);
    assert EdgeOk(g, e) && EdgeOk(h, e);
    ReachSetClosed(h, t);
    assert ChildOf(h.edges, e, p) && Points(h.edges, e, t);
    assert Link(h, p, t);
    assert r.edges[e] == h.edges[e];
    ParentsUntouched(h, r, t, p);
    FewerParentsLooser(h, r, p);
    FewerParentsLooser(r, h, p);
    RegrantedOutside(g, h, e, w, p);
  }

  /** What a refresh below `t` leaves alone: the links to a node that is not below. */
  lemma ParentsUntouched(h: Graph, r: Graph, t: NodeId, p: NodeId)
    requires t in h.nodes && Refreshed(h, r, ReachSet(h, t)) && p in h.nodes && p !in ReachSet(h, t)
    ensures NoNewParents(h, r, p) && NoNewParents(r, h, p)
  {
    ReachSetClosed(h, t);
    forall d | Points(h.edges, d, p) || Points(r.edges, d, p) ensures d in h.edges && r.edges[d] == h.edges[d] {
      assert SameLink(h.edges[d], r.edges[d]) && EdgeOk(h, d);
      if SetBy(h, d, ReachSet(h, t)) {
        assert ChildOf(h.edges, d, h.edges[d].parent.node) && Points(h.edges, d, p);
      }
    }
  }

  /** The graph after a replacement has the shape the refresh lemmas ask for. */
  lemma MovedIsMoveOnly(g: Graph, h: Graph, from: NodeId, to: NodeId, moved: set<EdgeId>, list: seq<NodeId>)
    requires MovedFrom(g, h, from, to, moved) && Acyclic(g) && Acyclic(h)
    requires TopoList(h, list) && Elems(list) == Below(h, {from, to})
    ensures MoveOnly(g, h, from, to, moved, list)
  {
    ReachesSelf(h, from);
    ReachesSelf(h, to);
    assert from in Elems(list) && to in Elems(list);
    forall e | e in moved ensures Points(g.edges, e, from) && !OutOf(g.edges[e], list) {
      if g.edges[e].parent.Bds? {
        MovedOwnersOutside(g, h, from, to, moved, e);
        assert g.edges[e].parent.node !in Elems(list);
      }
    }
  }

  // ---------------------------------------------------------------------------
  // Append: a new node on top of `top`.

  /** `g` gets the link `e` from `bsNew` to `top`, then `moved` goes from `top` to `bsNew`. */
  ghost predicate Appended(g: Graph, h1: Graph, h: Graph, e: EdgeId, c: Edge, bsNew: NodeId, top: NodeId,
                           moved: set<EdgeId>) {
    && Attached(g, h1, e, c, top) && c.parent == Bds(bsNew)
    && MovedFrom(h1, h, top, bsNew, moved)
  }

  /** The new link stays where it is, and it keeps `top` below the new node. */
  lemma AppendedBelow(g: Graph, h1: Graph, h: Graph, e: EdgeId, c: Edge, bsNew: NodeId, top: NodeId, moved: set<EdgeId>)
    requires Appended(g, h1, h, e, c, bsNew, top, moved)
    ensures e !in moved && Link(h, bsNew, top)
    ensures top in ReachSet(h, bsNew) && bsNew in ReachSet(h, bsNew)
    ensures forall d :: d in moved ==> Points(g.edges, d, top)
  {
    ReachesSelf(h1, bsNew);
    assert e !in moved;
    assert ChildOf(h.edges, e, bsNew) && Points(h.edges, e, top);
    ReachSetClosed(h, bsNew);
    LinkReaches(h, bsNew, top);
    LinkEnds(h, bsNew, top);
  }

  lemma AppendedMoveOnly(g: Graph, h1: Graph, h: Graph, e: EdgeId, c: Edge, bsNew: NodeId, top: NodeId,
                         moved: set<EdgeId>, list: seq<NodeId>)
    requires Appended(g, h1, h, e, c, bsNew, top, moved)
    requires TopoList(h, list) && Elems(list) == ReachSet(h, bsNew)
    ensures MoveOnly(g, h, top, bsNew, moved, list)
  {
    AppendedBelow(g, h1, h, e, c, bsNew, top, moved);
    MovedReach(h1, h, top, bsNew, moved);
    assert top in Elems(list) && bsNew in Elems(list);
    forall d | d in moved ensures Points(g.edges, d, top) && !OutOf(g.edges[d], list) {
      assert EdgeOk(g, d);
      if g.edges[d].parent.Bds? {
        assert !Reaches(h, bsNew, g.edges[d].parent.node);
        assert g.edges[d].parent.node !in Elems(list);
      }
    }
  }

  // ---------------------------------------------------------------------------
  // Exchanging the backing link of a node.

  /** `h0` is `g` with the old link (if any) let go; `h` is `h0` with the new one (if
      any) in place. */
  ghost predicate Exchanged(g: Graph, h0: Graph, h: Graph, bs: NodeId, gone: Option<EdgeId>,
                            e: EdgeId, c: Edge, child: Option<NodeId>) {
    && WF(g) && WF(h0) && WF(h)
    && (if gone.Some? then Without(g, h0, gone.value) else h0 == g)
    && (if child.Some? then Attached(h0, h, e, c, child.value) && c.parent == Bds(bs) else h == h0)
  }

  lemma ExchangedFacts(g: Graph, h0: Graph, h: Graph, bs: NodeId, gone: Option<EdgeId>,
                       e: EdgeId, c: Edge, child: Option<NodeId>)
    requires Exchanged(g, h0, h, bs, gone, e, c, child) && bs in g.nodes
    ensures h.nodes == g.nodes
    ensures forall n :: n in h.nodes && n !in ReachSet(h, bs) ==> NoNewParents(g, h, n)
    ensures forall d :: Driven(h, d) && !(h.edges[d].parent == Bds(bs)) ==> KeptLink(g, h, d)
  {
    if gone.Some? {
      WithoutFacts(g, h0, gone.value);
    }
    ReachSetClosed(h, bs);
    if child.Some? {
      assert ChildOf(h.edges, e, bs) && Points(h.edges, e, child.value);
      assert Link(h, bs, child.value);
    }
    forall n | n in h.nodes && n !in ReachSet(h, bs) ensures NoNewParents(g, h, n) {
      assert NoNewParents(g, h0, n);
    }
    forall d | Driven(h, d) && !(h.edges[d].parent == Bds(bs)) ensures KeptLink(g, h, d) {
      assert Driven(h0, d) && h.edges[d] == h0.edges[d];
      assert EdgeOk(h0, d);
      assert EdgeOk(g, d);
    }
  }

  lemma ExchangedCovers(g: Graph, h0: Graph, h: Graph, bs: NodeId, gone: Option<EdgeId>,
                        e: EdgeId, c: Edge, child: Option<NodeId>, list: seq<NodeId>)
    requires Exchanged(g, h0, h, bs, gone, e, c, child) && bs in g.nodes && LinksCover(g)
    requires TopoList(h, list) && Elems(list) == ReachSet(h, bs)
    ensures LinksCover(Pushed(h, list))
  {
    ExchangedFacts(g, h0, h, bs, gone, e, c, child);
    ReachSetClosed(h, bs);
    assert bs in Elems(list);
    assert Outside(g, h, list);
    PushKeepsLinksCover(g, h, list);
  }
}
