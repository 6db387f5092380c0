/** Pushing permissions down the graph: what is in force on a node, what its links
    should hold, and what a refresh over a topological list establishes. */
module Refresh {
  import opened Options
  import opened Perms
  import opened Seqs
  import opened BlockGraph
  import opened Reach
  import opened Topo

  function GrantOf(c: Edge): Grant {
    Grant(c.perm, c.shared)
  }

  /** What a list of parent links takes together, and what they all leave. */
  function Total(edges: map<EdgeId, Edge>, es: seq<EdgeId>): Grant
    requires forall e :: e in es ==> e in edges
  {
    if es == [] then Grant(NONE, ALL)
    else
      var rest := Total(edges, es[1..]);
      Grant(Or(edges[es[0]].perm, rest.perm), And(edges[es[0]].shared, rest.shared))
  }

  /** The cumulative permissions of a node. */
  function Cumulative(g: Graph, n: NodeId): Grant
    requires WF(g) && n in g.nodes
  {
    assert ListsOk(g, n);
    Total(g.edges, g.parents[n])
  }

  lemma {:induction false} TotalIsUpperBound(edges: map<EdgeId, Edge>, es: seq<EdgeId>, e: EdgeId)
    requires (forall x :: x in es ==> x in edges) && e in es
    ensures Looser(GrantOf(edges[e]), Total(edges, es))
  {
    if es[0] != e {
      TotalIsUpperBound(edges, es[1..], e);
    }
  }

  lemma {:induction false} TotalIsLeast(edges: map<EdgeId, Edge>, es: seq<EdgeId>, h: Grant)
    requires forall x :: x in es ==> x in edges && Looser(GrantOf(edges[x]), h)
    ensures Looser(Total(edges, es), h)
  {
    if es != [] {
      TotalIsLeast(edges, es[1..], h);
    }
  }

  /** Taking parents away, or loosening them, loosens the total. */
  lemma TotalMonotone(e1: map<EdgeId, Edge>, es1: seq<EdgeId>, e2: map<EdgeId, Edge>, es2: seq<EdgeId>)
    requires forall x :: x in es2 ==> x in e2
    requires forall x :: x in es1 ==> x in e1 && x in es2 && Looser(GrantOf(e1[x]), GrantOf(e2[x]))
    ensures Looser(Total(e1, es1), Total(e2, es2))
  {
    forall x | x in es1 ensures Looser(GrantOf(e1[x]), Total(e2, es2)) {
      TotalIsUpperBound(e2, es2, x);
    }
    TotalIsLeast(e1, es1, Total(e2, es2));
  }

  /** bdrv_get_cumulative_perm. */
  method GetCumulativePerm(g: Graph, n: NodeId) returns (h: Grant)
    requires WF(g) && n in g.nodes
    ensures h == Cumulative(g, n)
  {
    var es := g.parents[n];
    assert ListsOk(g, n);
    h := Grant(NONE, ALL);
    for i := 0 to |es|
      invariant forall x :: x in es[i..] ==> x in es
      invariant Join(h, Total(g.edges, es[i..])) == Total(g.edges, es)
    {
      assert es[i..][1..] == es[i + 1..];
      assert Points(g.edges, es[i], n);
      h := Grant(Or(h.perm, g.edges[es[i]].perm), And(h.shared, g.edges[es[i]].shared));
    }
  }

  function Join(a: Grant, b: Grant): Grant {
    Grant(Or(a.perm, b.perm), And(a.shared, b.shared))
  }

  /** No parent link of `n` takes what another one does not share. */
  ghost predicate ConflictFreeAt(g: Graph, n: NodeId) {
    forall a, b :: Points(g.edges, a, n) && Points(g.edges, b, n) && a != b ==>
                     Sub(g.edges[b].perm, g.edges[a].shared)
  }

  /** bdrv_parent_perms_conflict: each pair of parents is looked at both ways. */
  method ParentPermsConflict(g: Graph, n: NodeId) returns (conflict: bool)
    requires WF(g) && n in g.nodes
    ensures conflict <==> !ConflictFreeAt(g, n)
  {
    var es := g.parents[n];
    assert ListsOk(g, n);
    for i := 0 to |es|
      invariant forall k, j :: 0 <= k < i && 0 <= j < |es| && k != j ==> Allows(g.edges, es[k], es[j])
    {
      for j := 0 to |es|
        invariant forall k :: 0 <= k < j && k != i ==> Allows(g.edges, es[i], es[k])
      {
        assert Points(g.edges, es[i], n) && Points(g.edges, es[j], n);
        if i != j && !Sub(g.edges[es[j]].perm, g.edges[es[i]].shared) {
          return true;
        }
      }
    }
    conflict := false;
    forall a, b | Points(g.edges, a, n) && Points(g.edges, b, n) && a != b
      ensures Sub(g.edges[b].perm, g.edges[a].shared)
    {
      assert a in es && b in es;
      var k :| 0 <= k < |es| && es[k] == a;
      var j :| 0 <= j < |es| && es[j] == b;
      assert Allows(g.edges, es[k], es[j]);
    }
  }

  predicate Allows(edges: map<EdgeId, Edge>, a: EdgeId, b: EdgeId) {
    a in edges && b in edges && Sub(edges[b].perm, edges[a].shared)
  }

  /** What the owner of link `e` needs on it, given what is in force on the owner. */
  function Wanted(g: Graph, e: EdgeId): Grant
    requires WF(g) && e in g.edges && g.edges[e].parent.Bds? && g.edges[e].target.Some?
  {
    assert EdgeOk(g, e);
    var p := g.edges[e].parent.node;
    ChildPerms(g.nodes[p].flags, g.nodes[g.edges[e].target.value].forceShare,
               g.edges[e].role, Cumulative(g, p))
  }

  /** Every way a graph operation can be refused. */
  datatype Error =
    | Conflict | ReadOnly | Unaligned | DriverRefused
    | Cycle | Inactive | ContextClash | Frozen | PinnedLink | NoBackingSupport | NoDriver | NoFileChild

  /** What lies outside the graph: whether a driver's bdrv_check_perm callback accepts what
      will be in force on a node, and whether the AioContexts of a new parent and its child
      can be brought together. Any answer is possible. */
  datatype Answers = Answers(accepts: (NodeId, Grant) -> bool, joins: (Parent, NodeId) -> bool)

  /** The tests a refresh runs on one node before touching its children. */
  ghost function NodeError(g: Graph, n: NodeId, check: Answers): Option<Error>
    requires WF(g) && n in g.nodes
  {
    if !ConflictFreeAt(g, n) then Some(Conflict)
    else HeldError(g.nodes[n], n, Cumulative(g, n), check)
  }

  /** The tests on what is in force on the node: read-only images, image size, and
      the driver's own opinion. */
  function HeldError(node: Node, n: NodeId, h: Grant, check: Answers): Option<Error> {
    if Writes(h.perm) && !Writable(node.flags) then Some(ReadOnly)
    else if Writes(h.perm) && !h.perm.resize && !node.sizeAligned then Some(Unaligned)
    else if node.hasDriver && !check.accepts(n, h) then Some(DriverRefused)
    else None
  }

  /** Only the grants on links out of `n` differ, and they are what `n` needs. */
  function RefreshNode(g: Graph, n: NodeId): (r: Graph)
    requires WF(g) && n in g.nodes
    ensures WF(r)
  {
    if !g.nodes[n].hasDriver then g
    else
      var r := g.(edges := map e | e in g.edges ::
        if ChildOf(g.edges, e, n) then
          var w := Wanted(g, e);
          g.edges[e].(perm := w.perm, shared := w.shared)
        else g.edges[e]);
      assert WF(r) by {
        forall e | e in r.edges ensures EdgeOk(r, e) { assert EdgeOk(g, e); }
        SameEndsWF(g, r);
      }
      r
  }

  /** The graph after permissions were pushed down a list, first node first. */
  function Pushed(g: Graph, list: seq<NodeId>): (r: Graph)
    requires WF(g) && Elems(list) <= g.nodes.Keys
    ensures WF(r) && SameShape(g, r)
    decreases |list|
  {
    if list == [] then g
    else
      assert list[0] in Elems(list);
      assert Elems(list[1..]) <= Elems(list);
      Pushed(RefreshNode(g, list[0]), list[1..])
  }

  /** The first refusal met on the way down the list. */
  ghost function FirstError(g: Graph, list: seq<NodeId>, check: Answers): Option<Error>
    requires WF(g) && Elems(list) <= g.nodes.Keys
    decreases |list|
  {
    if list == [] then None
    else
      assert list[0] in Elems(list);
      assert Elems(list[1..]) <= Elems(list);
      var err := NodeError(g, list[0], check);
      if err.Some? then err else FirstError(RefreshNode(g, list[0]), list[1..], check)
  }

  /** Two graphs that differ at most in the grants on their links. */
  ghost predicate SameShape(g: Graph, h: Graph) {
    && h.nodes == g.nodes && h.parents == g.parents && h.children == g.children
    && h.edges.Keys == g.edges.Keys
    && (forall e :: e in g.edges ==> SameLink(g.edges[e], h.edges[e]))
  }

  predicate SameLink(a: Edge, b: Edge) {
    a == b.(perm := a.perm, shared := a.shared)
  }

  // ---------------------------------------------------------------------------
  // What a push over a topological list establishes.

  lemma SameShapeLinks(g: Graph, h: Graph)
    requires SameShape(g, h)
    ensures forall a, b :: Link(g, a, b) <==> Link(h, a, b)
    ensures forall e, n :: Points(g.edges, e, n) <==> Points(h.edges, e, n)
    ensures forall e, n :: ChildOf(g.edges, e, n) <==> ChildOf(h.edges, e, n)
  {
    forall e, n
      ensures Points(g.edges, e, n) <==> Points(h.edges, e, n)
      ensures ChildOf(g.edges, e, n) <==> ChildOf(h.edges, e, n)
    {
      assert e in g.edges ==> SameLink(g.edges[e], h.edges[e]);
    }
    forall a, b ensures Link(g, a, b) <==> Link(h, a, b) {
      if Link(g, a, b) {
        var e :| ChildOf(g.edges, e, a) && Points(g.edges, e, b);
        assert ChildOf(h.edges, e, a) && Points(h.edges, e, b);
      }
      if Link(h, a, b) {
        var e :| ChildOf(h.edges, e, a) && Points(h.edges, e, b);
        assert ChildOf(g.edges, e, a) && Points(g.edges, e, b);
      }
    }
  }

  lemma TopoTail(g: Graph, h: Graph, list: seq<NodeId>)
    requires TopoList(g, list) && list != [] && SameShape(g, h)
    ensures TopoList(h, list[1..]) && list[0] !in list[1..]
    ensures forall x :: x in list ==> !Link(g, x, list[0])
  {
    SameShapeLinks(g, h);
    var tail := list[1..];
    forall x | x in list ensures !Link(g, x, list[0]) {
      var i :| 0 <= i < |list| && list[i] == x;
    }
    forall a, b | a in Elems(tail) && Link(h, a, b) ensures b in Elems(tail) {
      assert a in Elems(list) && b in Elems(list);
      assert b != list[0];
    }
  }

  lemma TotalSame(e1: map<EdgeId, Edge>, e2: map<EdgeId, Edge>, es: seq<EdgeId>)
    requires forall x :: x in es ==> x in e1 && x in e2 && GrantOf(e1[x]) == GrantOf(e2[x])
    ensures Total(e1, es) == Total(e2, es)
  {
    TotalMonotone(e1, es, e2, es);
    TotalMonotone(e2, es, e1, es);
  }

  /** Only links out of listed nodes may differ between `g` and `h`. */
  ghost predicate OnlyOutOf(g: Graph, h: Graph, list: seq<NodeId>)
    requires SameShape(g, h)
  {
    forall e :: e in g.edges && !OutOf(g.edges[e], list) ==> h.edges[e] == g.edges[e]
  }

  predicate OutOf(c: Edge, list: seq<NodeId>) {
    c.parent.Bds? && c.parent.node in list
  }

  /** If no listed node links to `n`, changes on links out of the list cannot be
      seen at `n`. */
  lemma SeenSame(g: Graph, h: Graph, list: seq<NodeId>, n: NodeId, check: Answers)
    requires WF(g) && WF(h) && SameShape(g, h) && OnlyOutOf(g, h, list) && n in g.nodes
    requires forall x :: x in list ==> !Link(g, x, n)
    ensures Cumulative(h, n) == Cumulative(g, n)
    ensures ConflictFreeAt(h, n) <==> ConflictFreeAt(g, n)
    ensures NodeError(h, n, check) == NodeError(g, n, check)
  {
    forall e | Points(g.edges, e, n) ensures h.edges[e] == g.edges[e] {
      if g.edges[e].parent.Bds? {
        assert ChildOf(g.edges, e, g.edges[e].parent.node);
        assert Link(g, g.edges[e].parent.node, n);
      }
    }
    SameShapeLinks(g, h);
    assert ListsOk(g, n);
    TotalSame(g.edges, h.edges, g.parents[n]);
  }

  /** bdrv_do_refresh_perms on a topological list: links out of unlisted nodes are
      untouched, and every link out of a listed node ends up with exactly what its
      owner needs, measured on the final graph. */
  lemma {:induction false} PushedExact(g: Graph, list: seq<NodeId>)
    requires WF(g) && TopoList(g, list)
    ensures OnlyOutOf(g, Pushed(g, list), list)
    ensures forall n, e :: n in list && g.nodes[n].hasDriver && ChildOf(g.edges, e, n) ==>
              GrantOf(Pushed(g, list).edges[e]) == Wanted(Pushed(g, list), e)
    decreases |list|
  {
    if list == [] {
      return;
    }
    var n0, tail := list[0], list[1..];
    assert n0 in Elems(list);
    var g1 := RefreshNode(g, n0);
    var r := Pushed(g, list);
    TopoTail(g, g1, list);
    PushedExact(g1, tail);
    assert r == Pushed(g1, tail);
    SameShapeLinks(g, g1);
    assert OnlyOutOf(g, g1, list);
    SeenSame(g, r, list, n0, Answers((_, _) => true, (_, _) => true));
    forall n, e | n in list && g.nodes[n].hasDriver && ChildOf(g.edges, e, n)
      ensures GrantOf(r.edges[e]) == Wanted(r, e)
    {
      if n == n0 {
        assert !OutOf(g1.edges[e], tail);
        assert SameLink(g.edges[e], r.edges[e]);
      } else {
        assert n in tail && ChildOf(g1.edges, e, n);
      }
    }
  }

  /** And when no test failed on the way, every test holds of every listed node on
      the final graph. */
  lemma {:induction false} PushedChecked(g: Graph, list: seq<NodeId>, check: Answers)
    requires WF(g) && TopoList(g, list) && FirstError(g, list, check) == None
    ensures forall n :: n in list ==> NodeError(Pushed(g, list), n, check) == None
    decreases |list|
  {
    if list == [] {
      return;
    }
    var n0, tail := list[0], list[1..];
    assert n0 in Elems(list);
    var g1 := RefreshNode(g, n0);
    TopoTail(g, g1, list);
    PushedChecked(g1, tail, check);
    PushedExact(g, list);
    SeenSame(g, Pushed(g, list), list, n0, check);
  }

  /** And it passes only then: a failure shows at some node with the final grants. */
  lemma {:induction false} FailureShows(g: Graph, list: seq<NodeId>, check: Answers)
    requires WF(g) && TopoList(g, list) && FirstError(g, list, check).Some?
    ensures exists n :: n in list && NodeError(Pushed(g, list), n, check).Some?
    decreases |list|
  {
    var n0, tail := list[0], list[1..];
    assert n0 in Elems(list);
    PushedExact(g, list);
    SeenSame(g, Pushed(g, list), list, n0, check);
    if NodeError(g, n0, check) == None {
      var g1 := RefreshNode(g, n0);
      TopoTail(g, g1, list);
      FailureShows(g1, tail, check);
    }
  }

  /** A link whose grants a refresh of the nodes `s` sets. */
  predicate SetBy(g: Graph, e: EdgeId, s: set<NodeId>) {
    && e in g.edges && g.edges[e].parent.Bds? && g.edges[e].target.Some?
    && g.edges[e].parent.node in s && g.edges[e].parent.node in g.nodes && g.nodes[g.edges[e].parent.node].hasDriver
  }

  /** What a successful refresh of the nodes `s` means, with no mention of order: links a
      driver of `s` sets hold exactly what their owner needs on the resulting graph, and
      all others are untouched. */
  ghost predicate Refreshed(g: Graph, h: Graph, s: set<NodeId>) {
    && WF(g) && WF(h) && SameShape(g, h)
    && (forall e :: e in g.edges && !SetBy(g, e, s) ==> h.edges[e] == g.edges[e])
    && (forall e :: e in h.edges && SetBy(h, e, s) ==> GrantOf(h.edges[e]) == Wanted(h, e))
  }

  /** Links out of a listed node without a driver, and detached links, are not touched. */
  lemma {:induction false} PushedKeeps(g: Graph, list: seq<NodeId>, e: EdgeId)
    requires WF(g) && Elems(list) <= g.nodes.Keys && e in g.edges && !SetBy(g, e, Elems(list))
    ensures Pushed(g, list).edges[e] == g.edges[e]
    decreases |list|
  {
    if list != [] {
      var g1 := RefreshNode(g, list[0]);
      assert list[0] in Elems(list) && Elems(list[1..]) <= Elems(list);
      assert g1.edges[e] == g.edges[e];
      PushedKeeps(g1, list[1..], e);
    }
  }

  lemma PushedRefreshed(g: Graph, list: seq<NodeId>)
    requires WF(g) && TopoList(g, list)
    ensures Refreshed(g, Pushed(g, list), Elems(list))
  {
    var r := Pushed(g, list);
    PushedExact(g, list);
    SameShapeLinks(g, r);
    forall e | e in r.edges && SetBy(r, e, Elems(list)) ensures GrantOf(r.edges[e]) == Wanted(r, e) {
      assert ChildOf(g.edges, e, r.edges[e].parent.node);
    }
    forall e | e in g.edges && !SetBy(g, e, Elems(list)) ensures r.edges[e] == g.edges[e] {
      PushedKeeps(g, list, e);
    }
  }

  ghost function Above(g: Graph, n: NodeId): set<NodeId> {
    set a | a in g.nodes && Reaches(g, a, n)
  }

  lemma AboveFalls(g: Graph, p: NodeId, n: NodeId)
    requires WF(g) && Acyclic(g) && Link(g, p, n)
    ensures |Above(g, p)| < |Above(g, n)|
  {
    LinkEnds(g, p, n);
    ReachesSelf(g, n);
    forall a | a in Above(g, p) ensures a in Above(g, n) {
      LinkReaches(g, p, n);
      ReachesTrans(g, a, p, n);
    }
    assert n !in Above(g, p);
    SubsetSize(Above(g, p), Above(g, n), n);
  }

  /** What is in force on a node is settled by what is in force above it. */
  lemma {:induction false} SameInForce(g: Graph, h1: Graph, h2: Graph, s: set<NodeId>, n: NodeId)
    requires Acyclic(g) && Refreshed(g, h1, s) && Refreshed(g, h2, s) && n in g.nodes
    ensures Cumulative(h1, n) == Cumulative(h2, n)
    decreases |Above(g, n)|
  {
    assert ListsOk(g, n) && ListsOk(h1, n) && ListsOk(h2, n);
    SameShapeLinks(g, h1);
    forall e | e in g.parents[n] ensures e in h1.edges && e in h2.edges
        && GrantOf(h1.edges[e]) == GrantOf(h2.edges[e]) {
      assert Points(g.edges, e, n);
      if SetBy(g, e, s) {
        var p := g.edges[e].parent.node;
        assert ChildOf(g.edges, e, p) && Link(g, p, n);
        AboveFalls(g, p, n);
        SameInForce(g, h1, h2, s, p);
        SameNeed(g, h1, h2, s, e);
      }
    }
    TotalSame(h1.edges, h2.edges, g.parents[n]);
  }

  lemma SameNeed(g: Graph, h1: Graph, h2: Graph, s: set<NodeId>, e: EdgeId)
    requires Refreshed(g, h1, s) && Refreshed(g, h2, s) && SetBy(g, e, s)
    requires Cumulative(h1, g.edges[e].parent.node) == Cumulative(h2, g.edges[e].parent.node)
    ensures h1.edges[e] == h2.edges[e]
  {
    assert SameLink(g.edges[e], h1.edges[e]) && SameLink(g.edges[e], h2.edges[e]);
    assert SetBy(h1, e, s) && SetBy(h2, e, s);
  }

  /** A refresh has one outcome, whatever the order. */
  lemma RefreshedUnique(g: Graph, h1: Graph, h2: Graph, s: set<NodeId>)
    requires Acyclic(g) && Refreshed(g, h1, s) && Refreshed(g, h2, s)
    ensures h1 == h2
  {
    forall e | e in g.edges ensures h1.edges[e] == h2.edges[e] {
      if SetBy(g, e, s) {
        SameInForce(g, h1, h2, s, g.edges[e].parent.node);
        SameNeed(g, h1, h2, s, e);
      }
    }
    assert h1.edges == h2.edges;
  }

  // ---------------------------------------------------------------------------
  // The loop that refreshes the children of one node.

  function Fitted(g: Graph, e: EdgeId): Edge
    requires WF(g) && e in g.edges && g.edges[e].parent.Bds? && g.edges[e].target.Some?
  {
    var w := Wanted(g, e);
    g.edges[e].(perm := w.perm, shared := w.shared)
  }

  /** `edges` is the link table of `g` after the first `i` children of `n` were set. */
  ghost predicate PartlySet(g: Graph, n: NodeId, i: nat, edges: map<EdgeId, Edge>)
    requires WF(g) && n in g.nodes
  {
    && edges.Keys == g.edges.Keys
    && (forall e :: e in g.edges ==>
          edges[e] == if ChildOf(g.edges, e, n) && e in FirstOf(g.children[n], i) then Fitted(g, e) else g.edges[e])
  }

  function FirstOf(es: seq<EdgeId>, i: nat): seq<EdgeId> {
    if i <= |es| then es[..i] else es
  }

  lemma PartlyStep(g: Graph, n: NodeId, i: nat, edges: map<EdgeId, Edge>)
    requires WF(g) && n in g.nodes && i < |g.children[n]| && PartlySet(g, n, i, edges)
    ensures g.children[n][i] in edges && ChildOf(g.edges, g.children[n][i], n)
    ensures edges[g.children[n][i]] == g.edges[g.children[n][i]]
    ensures PartlySet(g, n, i + 1, edges[g.children[n][i] := Fitted(g, g.children[n][i])])
  {
    assert ListsOk(g, n);
    var c := g.children[n][i];
    var done, more := FirstOf(g.children[n], i), FirstOf(g.children[n], i + 1);
    assert more == done + [c];
    assert c !in done && ChildOf(g.edges, c, n);
    assert forall e :: e in more <==> e in done || e == c;
  }

  lemma PartlyDone(g: Graph, n: NodeId, edges: map<EdgeId, Edge>)
    requires WF(g) && n in g.nodes && g.nodes[n].hasDriver && PartlySet(g, n, |g.children[n]|, edges)
    ensures edges == RefreshNode(g, n).edges
  {
    assert ListsOk(g, n);
    assert FirstOf(g.children[n], |g.children[n]|) == g.children[n];
  }

  lemma NothingSet(g: Graph, n: NodeId)
    requires WF(g) && n in g.nodes
    ensures PartlySet(g, n, 0, g.edges) && n in g.children
  {
    assert FirstOf(g.children[n], 0) == [];
  }

  lemma RefreshUndriven(g: Graph, n: NodeId)
    requires WF(g) && n in g.nodes && !g.nodes[n].hasDriver
    ensures RefreshNode(g, n) == g
  {
  }

  lemma RefreshShape(g: Graph, n: NodeId)
    requires WF(g) && n in g.nodes
    ensures RefreshNode(g, n) == g.(edges := RefreshNode(g, n).edges)
  {
  }

  /** A refresh fails for permission reasons only. */
  lemma {:induction false} RefreshErrors(g: Graph, list: seq<NodeId>, check: Answers)
    requires WF(g) && Elems(list) <= g.nodes.Keys
    ensures FirstError(g, list, check) in
              {None, Some(Conflict), Some(ReadOnly), Some(Unaligned), Some(DriverRefused)}
    decreases |list|
  {
    if list != [] {
      assert list[0] in Elems(list);
      assert Elems(list[1..]) <= Elems(list);
      RefreshErrors(RefreshNode(g, list[0]), list[1..], check);
    }
  }

  /** All nodes below any of `tops`. */
  ghost function Below(g: Graph, tops: set<NodeId>): set<NodeId> {
    set n | n in g.nodes && exists t :: t in tops && Reaches(g, t, n)
  }
}
