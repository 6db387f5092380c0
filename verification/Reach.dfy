/** Reachability and acyclicity of the block graph, the two reachability tests of
    the block layer, and the one fact both graph surgeries rest on: a new link from
    `p` to `c` is safe when `c` does not reach `p`. */
module Reach {
  import opened Options
  import opened Perms
  import opened Seqs
  import opened BlockGraph

  ghost predicate Link(g: Graph, a: NodeId, b: NodeId) {
    exists e :: ChildOf(g.edges, e, a) && Points(g.edges, e, b)
  }

  ghost predicate IsPath(g: Graph, p: seq<NodeId>) {
    |p| > 0 && (|p| > 1 ==> Link(g, p[0], p[1]) && IsPath(g, p[1..]))
  }

  ghost predicate PathFromTo(g: Graph, p: seq<NodeId>, a: NodeId, b: NodeId) {
    IsPath(g, p) && p[0] == a && p[|p| - 1] == b
  }

  ghost predicate Reaches(g: Graph, a: NodeId, b: NodeId) {
    exists p :: PathFromTo(g, p, a, b)
  }

  ghost predicate Acyclic(g: Graph) {
    forall a, b :: Link(g, a, b) ==> !Reaches(g, b, a)
  }

  ghost function ReachSet(g: Graph, a: NodeId): set<NodeId> {
    set n | n in g.nodes && Reaches(g, a, n)
  }

  ghost predicate ClosedUnderLinks(g: Graph, s: set<NodeId>) {
    forall a, b :: a in s && Link(g, a, b) ==> b in s
  }

  lemma ReachesSelf(g: Graph, a: NodeId)
    ensures Reaches(g, a, a)
  {
    assert PathFromTo(g, [a], a, a);
  }

  lemma LinkThenReaches(g: Graph, a: NodeId, b: NodeId, c: NodeId)
    requires Link(g, a, b) && Reaches(g, b, c)
    ensures Reaches(g, a, c)
  {
    var p :| PathFromTo(g, p, b, c);
    var q := [a] + p;
    assert q[1..] == p;
    assert PathFromTo(g, q, a, c);
  }

  lemma LinkReaches(g: Graph, a: NodeId, b: NodeId)
    requires Link(g, a, b)
    ensures Reaches(g, a, b)
  {
    ReachesSelf(g, b);
    LinkThenReaches(g, a, b, b);
  }

  lemma {:induction false} PathThenReaches(g: Graph, p: seq<NodeId>, a: NodeId, b: NodeId, c: NodeId)
    requires PathFromTo(g, p, a, b) && Reaches(g, b, c)
    ensures Reaches(g, a, c)
    decreases |p|
  {
    if |p| > 1 {
      PathThenReaches(g, p[1..], p[1], b, c);
      LinkThenReaches(g, a, p[1], c);
    }
  }

  lemma ReachesTrans(g: Graph, a: NodeId, b: NodeId, c: NodeId)
    requires Reaches(g, a, b) && Reaches(g, b, c)
    ensures Reaches(g, a, c)
  {
    var p :| PathFromTo(g, p, a, b);
    PathThenReaches(g, p, a, b, c);
  }

  /** A node reached is the start itself or reached through one of its children. */
  lemma ReachesStep(g: Graph, a: NodeId, c: NodeId)
    requires Reaches(g, a, c) && a != c
    ensures exists b :: Link(g, a, b) && Reaches(g, b, c)
  {
    var p :| PathFromTo(g, p, a, c);
    assert PathFromTo(g, p[1..], p[1], c);
  }

  lemma {:induction false} PathStaysIn(g: Graph, s: set<NodeId>, p: seq<NodeId>, a: NodeId, b: NodeId)
    requires ClosedUnderLinks(g, s) && a in s && PathFromTo(g, p, a, b)
    ensures b in s
    decreases |p|
  {
    if |p| > 1 {
      PathStaysIn(g, s, p[1..], p[1], b);
    }
  }

  lemma ReachesStaysIn(g: Graph, s: set<NodeId>, a: NodeId, b: NodeId)
    requires ClosedUnderLinks(g, s) && a in s && Reaches(g, a, b)
    ensures b in s
  {
    var p :| PathFromTo(g, p, a, b);
    PathStaysIn(g, s, p, a, b);
  }

  lemma LinkEnds(g: Graph, a: NodeId, b: NodeId)
    requires WF(g) && Link(g, a, b)
    ensures a in g.nodes && b in g.nodes
  {
    var e :| ChildOf(g.edges, e, a) && Points(g.edges, e, b);
    assert EdgeOk(g, e);
  }

  lemma ReachSetClosed(g: Graph, a: NodeId)
    requires WF(g)
    ensures ClosedUnderLinks(g, ReachSet(g, a))
    ensures a in g.nodes ==> a in ReachSet(g, a)
  {
    ReachesSelf(g, a);
    forall x, y | x in ReachSet(g, a) && Link(g, x, y)
      ensures y in ReachSet(g, a)
    {
      LinkEnds(g, x, y);
      LinkReaches(g, x, y);
      ReachesTrans(g, a, x, y);
    }
  }

  /** The size of the reachable set falls along every link of an acyclic graph. */
  lemma RankFalls(g: Graph, a: NodeId, b: NodeId)
    requires WF(g) && Acyclic(g) && Link(g, a, b)
    ensures ReachSet(g, b) < ReachSet(g, a)
    ensures |ReachSet(g, b)| < |ReachSet(g, a)|
  {
    ReachSetClosed(g, a);
    LinkEnds(g, a, b);
    forall n | n in ReachSet(g, b) ensures n in ReachSet(g, a) {
      LinkThenReaches(g, a, b, n);
    }
    assert a !in ReachSet(g, b);
    SubsetSize(ReachSet(g, b), ReachSet(g, a), a);
  }

  lemma SubsetSize<T>(s: set<T>, t: set<T>, x: T)
    requires s <= t && x in t && x !in s
    ensures |s| < |t|
  {
    assert t == s + (t - s);
    assert x in t - s;
  }

  /** Fewer links, fewer paths. */
  lemma {:induction false} PathMono(g: Graph, h: Graph, p: seq<NodeId>, a: NodeId, b: NodeId)
    requires PathFromTo(g, p, a, b)
    requires forall x, y :: Link(g, x, y) ==> Link(h, x, y)
    ensures PathFromTo(h, p, a, b)
    decreases |p|
  {
    if |p| > 1 {
      PathMono(g, h, p[1..], p[1], b);
    }
  }

  lemma ReachesMono(g: Graph, h: Graph, a: NodeId, b: NodeId)
    requires Reaches(g, a, b)
    requires forall x, y :: Link(g, x, y) ==> Link(h, x, y)
    ensures Reaches(h, a, b)
  {
    var p :| PathFromTo(g, p, a, b);
    PathMono(g, h, p, a, b);
  }

  /** With one extra link p -> c, a path is an old path or passes over the new link. */
  lemma {:induction false} PathWithNewLink(g: Graph, h: Graph, p: NodeId, c: NodeId,
                                           q: seq<NodeId>, a: NodeId, b: NodeId)
    requires forall x, y :: Link(h, x, y) ==> Link(g, x, y) || (x == p && y == c)
    requires PathFromTo(h, q, a, b)
    ensures Reaches(g, a, b) || (Reaches(g, a, p) && Reaches(g, c, b))
    decreases |q|
  {
    if |q| == 1 {
      ReachesSelf(g, a);
    } else {
      PathWithNewLink(g, h, p, c, q[1..], q[1], b);
      if Link(g, a, q[1]) {
        if Reaches(g, q[1], b) {
          LinkThenReaches(g, a, q[1], b);
        } else {
          LinkThenReaches(g, a, q[1], p);
        }
      } else {
        ReachesSelf(g, p);
      }
    }
  }

  /** The safety fact behind both cycle tests: linking p -> c closes no cycle when
      c does not reach p, whatever other links go away at the same time. */
  lemma AcyclicWithNewLink(g: Graph, h: Graph, p: NodeId, c: NodeId)
    requires Acyclic(g) && !Reaches(g, c, p)
    requires forall x, y :: Link(h, x, y) ==> Link(g, x, y) || (x == p && y == c)
    ensures Acyclic(h)
  {
    forall x, y | Link(h, x, y) ensures !Reaches(h, y, x) {
      if Reaches(h, y, x) {
        var q :| PathFromTo(h, q, y, x);
        PathWithNewLink(g, h, p, c, q, y, x);
        if Link(g, x, y) {
          LinkThenReaches(g, x, y, p);
          ReachesTrans(g, c, x, p);
        }
        assert false;
      }
    }
  }

  /** And it is needed: if c reaches p, the link closes a cycle. */
  lemma CyclicWithBadLink(g: Graph, h: Graph, p: NodeId, c: NodeId)
    requires Reaches(g, c, p) && Link(h, p, c)
    requires forall x, y :: Link(g, x, y) ==> Link(h, x, y)
    ensures !Acyclic(h)
  {
    ReachesMono(g, h, c, p);
  }

  /** bdrv_recurse_has_child: the recursive test that guards a new child link. */
  function RecurseHasChild(g: Graph, bs: NodeId, child: NodeId): (r: bool)
    requires WF(g) && Acyclic(g) && bs in g.nodes
    ensures r <==> Reaches(g, bs, child)
    decreases |ReachSet(g, bs)|, |g.children[bs]| + 1
  {
    ReachesSelf(g, bs);
    assert ListsOk(g, bs);
    var r := bs == child || AnyHasChild(g, bs, g.children[bs], child);
    assert r ==> Reaches(g, bs, child) by {
      if bs != child && r {
        var e :| e in g.children[bs] && ChildOf(g.edges, e, bs) && Reaches(g, g.edges[e].target.value, child);
        assert Points(g.edges, e, g.edges[e].target.value);
        LinkThenReaches(g, bs, g.edges[e].target.value, child);
      }
    }
    assert Reaches(g, bs, child) ==> r by {
      if Reaches(g, bs, child) && bs != child {
        ReachesStep(g, bs, child);
        var t :| Link(g, bs, t) && Reaches(g, t, child);
        var e :| ChildOf(g.edges, e, bs) && Points(g.edges, e, t);
        assert e in g.children[bs];
      }
    }
    r
  }

  /** Its loop over the remaining links `es` of the children list of `bs`. */
  function AnyHasChild(g: Graph, bs: NodeId, es: seq<EdgeId>, child: NodeId): (r: bool)
    requires WF(g) && Acyclic(g) && bs in g.nodes
    requires forall e :: e in es ==> ChildOf(g.edges, e, bs)
    ensures r <==> exists e :: e in es && ChildOf(g.edges, e, bs) && Reaches(g, g.edges[e].target.value, child)
    decreases |ReachSet(g, bs)|, |es|
  {
    if es == [] then false
    else
      assert ChildOf(g.edges, es[0], bs);
      var t := g.edges[es[0]].target.value;
      assert Points(g.edges, es[0], t);
      LinkEnds(g, bs, t);
      RankFalls(g, bs, t);
      RecurseHasChild(g, t, child) || AnyHasChild(g, bs, es[1..], child)
  }

  /** Links owned by block jobs are never moved to another node. */
  predicate StaysAtNode(p: Parent) {
    p.Job?
  }

  /** A link may be moved to `to`: it is not pinned, and its owner is not below `to`. */
  ghost predicate Movable(g: Graph, c: EdgeId, to: NodeId)
    requires c in g.edges
  {
    && !StaysAtNode(g.edges[c].parent)
    && (g.edges[c].parent.Bds? ==> !Reaches(g, to, g.edges[c].parent.node))
  }

  /** should_update_child: the breadth-first search for the link itself below `to`. */
  method ShouldUpdateChild(g: Graph, c: EdgeId, to: NodeId) returns (ret: bool)
    requires WF(g) && c in g.edges && g.edges[c].target.Some? && to in g.nodes
    ensures ret <==> Movable(g, c, to)
  {
    if StaysAtNode(g.edges[c].parent) {
      return false;
    }
    ret := true;
    var found: set<NodeId> := {to};
    var queue: seq<NodeId> := [to];
    ReachesSelf(g, to);
    while queue != []
      invariant to in found && found <= ReachSet(g, to)
      invariant forall v :: v in queue ==> v in found
      invariant ret ==> forall v, e :: v in found && v !in queue && ChildOf(g.edges, e, v) ==>
                                         e != c && g.edges[e].target.value in found
      invariant !ret ==> g.edges[c].parent.Bds? && Reaches(g, to, g.edges[c].parent.node)
      decreases g.nodes.Keys - found, |queue|
    {
      var v := queue[0];
      assert v in ReachSet(g, to) && ListsOk(g, v);
      queue := queue[1..];
      ghost var found0, queue0 := found, queue;
      var i := 0;
      while i < |g.children[v]|
        invariant 0 <= i <= |g.children[v]|
        invariant found0 <= found <= ReachSet(g, to)
        invariant forall x :: x in queue ==> x in found
        invariant forall x :: x in found ==> x in found0 || x in queue
        invariant forall x :: x in queue0 ==> x in queue
        invariant found == found0 ==> queue == queue0
        invariant ret ==> forall k :: 0 <= k < i ==> g.children[v][k] != c && TargetIn(g.edges, g.children[v][k], found)
        invariant ret ==> forall x, e :: x in found0 && x !in queue0 && x != v && ChildOf(g.edges, e, x) ==>
                                           e != c && g.edges[e].target.value in found0
        invariant !ret ==> g.edges[c].parent.Bds? && Reaches(g, to, g.edges[c].parent.node)
      {
        var c2 := g.children[v][i];
        assert ChildOf(g.edges, c2, v);
        if c2 == c {
          ret := false;
          break;
        }
        var t := g.edges[c2].target.value;
        if t !in found {
          assert Points(g.edges, c2, t);
          LinkEnds(g, v, t);
          LinkReaches(g, v, t);
          ReachesTrans(g, to, v, t);
          queue := queue + [t];
          found := found + {t};
        }
        i := i + 1;
      }
    }
    if ret && g.edges[c].parent.Bds? && Reaches(g, to, g.edges[c].parent.node) {
      assert ClosedUnderLinks(g, found);
      ReachesStaysIn(g, found, to, g.edges[c].parent.node);
      assert ChildOf(g.edges, c, g.edges[c].parent.node);
      assert false;
    }
  }
}
