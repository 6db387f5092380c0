/** The block graph: nodes, the links between them, and the two doubly linked
    lists in which every attached link stands. */
module BlockGraph {
  import opened Options
  import opened Perms
  import opened Seqs

  type NodeId = nat
  type EdgeId = nat

  /** Who owns a link: a block node, a BlockBackend or a block job. */
  datatype Parent = Bds(node: NodeId) | Backend(backend: nat) | Job(job: nat)

  /** A BlockDriverState; only fields that graph operations read and never write. */
  datatype Node = Node(
    flags: Flags,
    forceShare: bool,
    hasDriver: bool,
    sizeAligned: bool,             // image size is a multiple of the request alignment
    isFilter: bool,
    filteredChildIsBacking: bool,
    supportsBacking: bool)

  /** A BdrvChild. `target` is the child node, absent while the link is detached. */
  datatype Edge = Edge(
    parent: Parent,
    target: Option<NodeId>,
    role: Role,
    perm: Mask,
    shared: Mask,
    frozen: bool)

  datatype Graph = Graph(
    nodes: map<NodeId, Node>,
    edges: map<EdgeId, Edge>,
    parents: map<NodeId, seq<EdgeId>>,
    children: map<NodeId, seq<EdgeId>>)

  predicate Points(edges: map<EdgeId, Edge>, e: EdgeId, n: NodeId) {
    e in edges && edges[e].target == Some(n)
  }

  predicate ChildOf(edges: map<EdgeId, Edge>, e: EdgeId, n: NodeId) {
    e in edges && edges[e].parent == Bds(n) && edges[e].target.Some?
  }

  predicate TargetIn(edges: map<EdgeId, Edge>, e: EdgeId, s: set<NodeId>) {
    e in edges && edges[e].target.Some? && edges[e].target.value in s
  }

  ghost predicate EdgeOk(g: Graph, e: EdgeId)
    requires e in g.edges
  {
    && (g.edges[e].target.Some? ==> g.edges[e].target.value in g.nodes)
    && (g.edges[e].parent.Bds? ==> g.edges[e].parent.node in g.nodes && ValidRole(g.edges[e].role))
  }

  /** The two lists of a node hold exactly the links its place in the graph calls for. */
  ghost predicate ListsOk(g: Graph, n: NodeId)
    requires n in g.parents && n in g.children
  {
    && NoDup(g.parents[n]) && NoDup(g.children[n])
    && (forall e :: e in g.parents[n] <==> Points(g.edges, e, n))
    && (forall e :: e in g.children[n] <==> ChildOf(g.edges, e, n))
  }

  /** Every link stands in exactly the lists its two ends call for. */
  ghost predicate WF(g: Graph) {
    && g.parents.Keys == g.nodes.Keys
    && g.children.Keys == g.nodes.Keys
    && (forall e {:trigger EdgeOk(g, e)} :: e in g.edges ==> EdgeOk(g, e))
    && (forall n {:trigger ListsOk(g, n)} :: n in g.nodes ==> ListsOk(g, n))
  }

  lemma LinkEndsExist(g: Graph, e: EdgeId)
    requires WF(g) && e in g.edges
    ensures EdgeOk(g, e)
  {
  }

  /** Removing a link from the lists of its two ends. */
  function Detach(g: Graph, e: EdgeId): (r: Graph)
    requires WF(g) && e in g.edges && g.edges[e].target.Some?
    ensures WF(r) && r.nodes == g.nodes
    ensures r.edges == g.edges[e := g.edges[e].(target := None)]
  {
    assert EdgeOk(g, e);
    var from := g.edges[e].target.value;
    assert ListsOk(g, from);
    var children := match g.edges[e].parent
      case Bds(p) => assert ListsOk(g, p); g.children[p := Remove(g.children[p], e)]
      case _ => g.children;
    var r := Graph(g.nodes, g.edges[e := g.edges[e].(target := None)],
                   g.parents[from := Remove(g.parents[from], e)], children);
    assert WF(r) by {
      forall d | d in r.edges ensures EdgeOk(r, d) { assert EdgeOk(g, d); }
      forall n | n in r.nodes ensures ListsOk(r, n) { assert ListsOk(g, n); }
    }
    r
  }

  /** Entering a detached link at the head of the lists of its two ends. */
  function Attach(g: Graph, e: EdgeId, n: NodeId): (r: Graph)
    requires WF(g) && e in g.edges && g.edges[e].target == None && n in g.nodes
    ensures WF(r) && r.nodes == g.nodes
    ensures r.edges == g.edges[e := g.edges[e].(target := Some(n))]
  {
    assert EdgeOk(g, e);
    var children := match g.edges[e].parent
      case Bds(p) => g.children[p := Prepend(e, g.children[p])]
      case _ => g.children;
    var r := Graph(g.nodes, g.edges[e := g.edges[e].(target := Some(n))],
                   g.parents[n := Prepend(e, g.parents[n])], children);
    assert WF(r) by {
      forall d | d in r.edges ensures EdgeOk(r, d) { assert EdgeOk(g, d); }
      forall m | m in r.nodes ensures ListsOk(r, m) { assert ListsOk(g, m); }
    }
    r
  }

  /** Links and nodes may change freely as long as no end of a link does. */
  lemma SameEndsWF(g: Graph, r: Graph)
    requires WF(g) && r.nodes.Keys == g.nodes.Keys && r.parents == g.parents && r.children == g.children
    requires forall e :: e in r.edges ==> EdgeOk(r, e)
    requires forall e, n :: n in g.nodes ==> (Points(r.edges, e, n) <==> Points(g.edges, e, n))
    requires forall e, n :: n in g.nodes ==> (ChildOf(r.edges, e, n) <==> ChildOf(g.edges, e, n))
    ensures WF(r)
  {
    forall n | n in r.nodes ensures ListsOk(r, n) { assert ListsOk(g, n); }
  }

  /** A link is allocated detached, and freed detached. */
  function AddEdge(g: Graph, e: EdgeId, c: Edge): (r: Graph)
    requires WF(g) && e !in g.edges && c.target == None
    requires c.parent.Bds? ==> c.parent.node in g.nodes && ValidRole(c.role)
    ensures WF(r)
  {
    var r := g.(edges := g.edges[e := c]);
    assert WF(r) by {
      forall d | d in r.edges ensures EdgeOk(r, d) { assert d != e ==> EdgeOk(g, d); }
      SameEndsWF(g, r);
    }
    r
  }

  function DropEdge(g: Graph, e: EdgeId): (r: Graph)
    requires WF(g) && e in g.edges && g.edges[e].target == None
    ensures WF(r)
  {
    var r := g.(edges := g.edges - {e});
    assert WF(r) by {
      forall d | d in r.edges ensures EdgeOk(r, d) { assert EdgeOk(g, d); }
      SameEndsWF(g, r);
    }
    r
  }

  function SetPerm(g: Graph, e: EdgeId, perm: Mask, shared: Mask): (r: Graph)
    requires WF(g) && e in g.edges
    ensures WF(r)
  {
    var r := g.(edges := g.edges[e := g.edges[e].(perm := perm, shared := shared)]);
    assert WF(r) by {
      forall d | d in r.edges ensures EdgeOk(r, d) { assert EdgeOk(g, d); }
      SameEndsWF(g, r);
    }
    r
  }
}
