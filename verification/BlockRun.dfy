/** Runs of the block layer: any sequence of graph operations, each allowed to
    fail, keeps every invariant. Also what the invariants do not give. */
module BlockRun {
  import opened Options
  import opened Perms
  import opened Seqs
  import opened BlockGraph
  import opened Reach
  import opened Refresh
  import opened PermInvariant
  import opened Tran
  import opened Surgery
  import opened BlockLayer

  /** A call into the layer, with what its driver callbacks will answer. */
  datatype Op =
    | New(n: NodeId, node: Node)
    | Ref(n: NodeId)
    | Unref(n: NodeId)
    | RunScheduled
    | AttachChild(parent: NodeId, child: NodeId, role: Role)
    | RootAttach(child: NodeId, user: Parent, role: Role, perm: Mask, shared: Mask)
    | RootUnref(e: EdgeId)
    | TrySetPerm(e: EdgeId, perm: Mask, shared: Mask)
    | RefreshChild(e: EdgeId)
    | Freeze(e: EdgeId, frozen: bool)
    | Replace(from: NodeId, to: NodeId, autoSkip: bool)
    | Append(bsNew: NodeId, top: NodeId)
    | SetBacking(bs: NodeId, backing: Option<NodeId>)

  /** Between operations no link hangs loose. */
  predicate AllAttached(edges: map<EdgeId, Edge>) {
    forall e :: e in edges ==> edges[e].target.Some?
  }

  /** No node was opened with force_share. */
  predicate NoneForced(nodes: map<NodeId, Node>) {
    forall n :: n in nodes ==> !nodes[n].forceShare
  }

  // ---------------------------------------------------------------------------
  // No operation leaves a link hanging.

  lemma RefreshedAttached(h: Graph, after: Graph, s: set<NodeId>)
    requires Refreshed(h, after, s) && AllAttached(h.edges)
    ensures AllAttached(after.edges)
  {
    forall e | e in after.edges ensures after.edges[e].target.Some? {
      assert SameLink(h.edges[e], after.edges[e]);
    }
  }

  lemma AttachAttached(before: Graph, after: Graph, e: EdgeId, c: Edge, child: NodeId, top: NodeId)
    requires Layer.AttachedAndFresh(before, after, e, c, child, top) && AllAttached(before.edges)
    ensures AllAttached(after.edges)
  {
    var h :| Attached(before, h, e, c, child) && Refreshed(h, after, ReachSet(h, top));
    RefreshedAttached(h, after, ReachSet(h, top));
  }

  lemma RegrantAttached(before: Graph, after: Graph, e: EdgeId, w: Grant)
    requires Layer.RegrantedAndFresh(before, after, e, w) && AllAttached(before.edges)
    ensures AllAttached(after.edges)
  {
    var h :| Regranted(before, h, e, w) && Refreshed(h, after, ReachSet(h, before.edges[e].target.value));
    RefreshedAttached(h, after, ReachSet(h, before.edges[e].target.value));
  }

  lemma MoveAttached(before: Graph, after: Graph, from: NodeId, to: NodeId, moved: set<EdgeId>)
    requires Layer.MovedAndFresh(before, after, from, to, moved) && AllAttached(before.edges)
    ensures AllAttached(after.edges)
  {
    var h :| MovedFrom(before, h, from, to, moved) && Refreshed(h, after, Below(h, {from, to}));
    RefreshedAttached(h, after, Below(h, {from, to}));
  }

  lemma AppendAttached(before: Graph, after: Graph, e: EdgeId, c: Edge, bsNew: NodeId, top: NodeId, moved: set<EdgeId>)
    requires Layer.AppendedAndFresh(before, after, e, c, bsNew, top, moved) && AllAttached(before.edges)
    ensures AllAttached(after.edges)
  {
    hide WF, Refreshed, ReachSet, MovableParents, Movable;
    var h1, h :| Appended(before, h1, h, e, c, bsNew, top, moved)
                 && moved == MovableParents(h1, top, bsNew) && Refreshed(h, after, ReachSet(h, bsNew));
    RefreshedAttached(h, after, ReachSet(h, bsNew));
  }

  lemma ExchangeAttached(before: Graph, after: Graph, bs: NodeId, gone: Option<EdgeId>, e: EdgeId,
                         child: Option<NodeId>)
    requires Layer.ExchangedAndFresh(before, after, bs, gone, e, child) && AllAttached(before.edges)
    ensures AllAttached(after.edges)
  {
    hide WF, Refreshed, ReachSet, Layer.NewBacking;
    var h0, h, c, r :| Exchanged(before, h0, h, bs, gone, e, c, child) && Layer.NewBacking(h0, bs, child, c)
                       && Refreshed(h, r, ReachSet(h, bs)) && after.edges == r.edges - Layer.Gone(gone);
    RefreshedShape(h, r, ReachSet(h, bs));
    forall d | d in after.edges ensures after.edges[d].target.Some? {
      assert SameLink(h.edges[d], r.edges[d]);
      assert gone.Some? && d in h0.edges ==> d in h0.edges - {gone.value};
      assert (d in h0.edges && d in before.edges) || (d == e && child.Some?);
    }
  }

  lemma RefreshedShape(h: Graph, after: Graph, s: set<NodeId>)
    requires Refreshed(h, after, s)
    ensures SameShape(h, after)
  {
  }

  lemma UnrefAttached(before: Graph, after: Graph, e: EdgeId, n: NodeId)
    requires exists h :: Without(before, h, e) && e !in h.edges && Refreshed(h, after, ReachSet(h, n))
    ensures after.edges.Keys == before.edges.Keys - {e}
    ensures AllAttached(before.edges) ==> AllAttached(after.edges)
  {
    hide WF, Refreshed, ReachSet;
    var h :| Without(before, h, e) && e !in h.edges && Refreshed(h, after, ReachSet(h, n));
    RefreshedShape(h, after, ReachSet(h, n));
    assert h.edges == before.edges - {e} by { assert h.edges - {e} == h.edges; }
    if AllAttached(before.edges) {
      RefreshedAttached(h, after, ReachSet(h, n));
    }
  }

  // ---------------------------------------------------------------------------
  // References.

  /** The loop of bdrv_close: every child link of the node is given up. */
  method CloseChildren(l: Layer, n: NodeId, check: Answers)
    requires l.Inv() && AllAttached(l.edges) && n in l.nodes && l.refcnt[n] == 1
    modifies l
    ensures l.Inv() && AllAttached(l.edges) && l.nodes == old(l.nodes) && l.outside == old(l.outside)
    ensures l.refcnt == old(l.refcnt)
    ensures forall e :: e in l.edges ==> l.edges[e].parent != Bds(n)
    ensures old(LinksCover(l.G())) ==> LinksCover(l.G())
  {
    hide Acyclic, NodesOk, RefsOk, Booked, LinksCover, WF;
    NodeHasLists(l.G(), n);
    while l.children[n] != []
      invariant l.Inv() && AllAttached(l.edges) && l.nodes == old(l.nodes) && l.outside == old(l.outside)
      invariant l.refcnt == old(l.refcnt) && n in l.children
      invariant old(LinksCover(l.G())) ==> LinksCover(l.G())
      decreases |l.edges|
    {
      GiveUp(l, n, check);
    }
    NoChildren(l.G(), n);
  }

  lemma NoChildren(g: Graph, n: NodeId)
    requires WF(g) && n in g.nodes && g.children[n] == [] && AllAttached(g.edges)
    ensures forall e :: e in g.edges ==> g.edges[e].parent != Bds(n)
  {
    assert ListsOk(g, n);
    forall e | e in g.edges ensures g.edges[e].parent != Bds(n) {
      assert !ChildOf(g.edges, e, n);
    }
  }

  lemma FirstChild(g: Graph, n: NodeId)
    requires WF(g) && n in g.nodes && g.children[n] != []
    ensures ChildOf(g.edges, g.children[n][0], n)
  {
    assert ListsOk(g, n) && g.children[n][0] in g.children[n];
  }

  /** One round of it: the driver has unfrozen the link, bdrv_unref_child removes it. */
  method GiveUp(l: Layer, n: NodeId, check: Answers)
    requires l.Inv() && AllAttached(l.edges) && n in l.nodes && n in l.children && l.children[n] != []
    modifies l
    ensures l.Inv() && AllAttached(l.edges) && l.nodes == old(l.nodes) && l.outside == old(l.outside)
    ensures l.refcnt == old(l.refcnt) && n in l.children && |l.edges| < |old(l.edges)|
    ensures old(LinksCover(l.G())) ==> LinksCover(l.G())
  {
    hide Acyclic, NodesOk, RefsOk, Booked, LinksCover, Without, Refreshed, WF;
    NodeHasLists(l.G(), n);
    var e := l.children[n][0];
    FirstChild(l.G(), n);
    l.SetFrozen(e, false);
    ghost var g := l.G();
    assert AllAttached(g.edges);
    var err := l.RootUnrefChild(e, check);
    if err == None {
      UnrefAttached(g, l.G(), e, g.edges[e].target.value);
    }
    assert l.edges.Keys == g.edges.Keys - {e};
    assert |l.edges.Keys| < |g.edges.Keys|;
    NodeHasLists(l.G(), n);
  }

  lemma NodeHasLists(g: Graph, n: NodeId)
    requires WF(g) && n in g.nodes
    ensures n in g.children && n in g.parents
  {
  }

  /** bdrv_unref. The node is deleted exactly when the reference was the last, and
      then no link points at it and nobody holds it. */
  method DoUnref(l: Layer, n: NodeId, check: Answers) returns (deleted: bool)
    requires l.Inv() && AllAttached(l.edges) && n in l.nodes && l.outside[n] >= 1
    modifies l
    ensures l.Inv() && AllAttached(l.edges) && l.outside == old(l.outside) - multiset{n}
    ensures deleted <==> old(l.refcnt[n]) == 1
    ensures deleted ==> l.outside[n] == 0 && n !in l.scheduled
    ensures deleted ==> forall e :: e in l.edges ==> l.edges[e].target != Some(n) && l.edges[e].parent != Bds(n)
    ensures l.nodes == if deleted then old(l.nodes) - {n} else old(l.nodes)
    ensures !deleted ==> l.refcnt == old(l.refcnt)[n := old(l.refcnt[n]) - 1] && l.edges == old(l.edges)
    ensures old(LinksCover(l.G())) ==> LinksCover(l.G())
  {
    hide Acyclic, NodesOk, RefsOk, Booked, LinksCover, WF;
    l.Counted(n);
    deleted := l.refcnt[n] == 1;
    if deleted {
      CloseChildren(l, n, check);
      l.LastHolder(n);
      l.DeleteNode(n);
    } else {
      l.DropRef(n);
    }
  }

  // ---------------------------------------------------------------------------
  // Runs.

  /** A node is not opened with force_share, and does not ask for less than it needs on its
      own child. */
  ghost predicate Modest(g: Graph, op: Op)
    requires WF(g)
  {
    && (op.New? ==> !op.node.forceShare)
    && (op.TrySetPerm? && Driven(g, op.e) ==> Looser(Wanted(g, op.e), Grant(op.perm, op.shared)))
  }

  /** What holds between operations. In a `plain` run all were modest, and then every link
      covers what its owner calls for. */
  ghost predicate Steady(l: Layer, plain: bool)
    reads l
  {
    l.Inv() && AllAttached(l.edges) && (plain ==> NoneForced(l.nodes) && LinksCover(l.G()))
  }

  lemma SharingAlwaysFits(g: Graph, moved: set<EdgeId>, to: NodeId)
    requires WF(g) && to in g.nodes && LinksCover(g) && NoneForced(g.nodes)
    ensures AllSharingFits(g, moved, to)
  {
    forall e | e in moved && Driven(g, e) ensures SharingFits(g, e, to) {
      assert EdgeOk(g, e) && Covers(g, e);
      SharingFitsUnlessForced(g, e, to);
    }
  }

  method StepReplace(l: Layer, from: NodeId, to: NodeId, autoSkip: bool, check: Answers, ghost plain: bool)
    requires Steady(l, plain) && from in l.nodes && to in l.nodes && from != to
    modifies l
    ensures Steady(l, plain)
  {
    hide Acyclic, NodesOk, RefsOk, Booked, LinksCover, WF, AllSharingFits;
    ghost var g := l.G();
    if plain {
      SharingAlwaysFits(g, MovableParents(g, from, to), to);
    }
    var err := l.ReplaceNode(from, to, autoSkip, check);
    if err == None {
      MoveAttached(g, l.G(), from, to, MovableParents(g, from, to));
    }
  }

  method StepAppend(l: Layer, bsNew: NodeId, top: NodeId, check: Answers, ghost plain: bool)
    requires Steady(l, plain) && bsNew in l.nodes && top in l.nodes && bsNew != top && l.nodes[bsNew].hasDriver
    modifies l
    ensures Steady(l, plain)
  {
    hide Acyclic, NodesOk, RefsOk, Booked, LinksCover, WF, AllSharingFits;
    ghost var g := l.G();
    var r;
    ghost var moved;
    r, moved := l.Append(bsNew, top, check);
    if r.Ok? {
      AppendAttached(g, l.G(), r.value, Layer.NewChild(g, bsNew, top, Layer.BackingRole(l.nodes[bsNew])), bsNew, top,
          moved);
      if plain {
        SharingAlwaysFits(g, moved, bsNew);
      }
    }
  }

  method StepSetBacking(l: Layer, bs: NodeId, child: Option<NodeId>, check: Answers, ghost plain: bool)
    requires Steady(l, plain) && bs in l.nodes && (child.Some? ==> child.value in l.nodes)
    modifies l
    ensures Steady(l, plain)
  {
    hide Acyclic, NodesOk, RefsOk, Booked, LinksCover, WF;
    ghost var g := l.G();
    var err;
    ghost var gone, e;
    err, gone, e := l.SetBacking(bs, child, check);
    if err == None {
      ExchangeAttached(g, l.G(), bs, gone, e, child);
    }
  }

  method StepAttach(l: Layer, parent: NodeId, child: NodeId, role: Role, check: Answers, ghost plain: bool)
    requires Steady(l, plain) && parent in l.nodes && child in l.nodes && l.nodes[parent].hasDriver && ValidRole(role)
    requires l.outside[child] >= 1
    modifies l
    ensures Steady(l, plain)
  {
    hide Acyclic, NodesOk, RefsOk, Booked, LinksCover, WF;
    ghost var g := l.G();
    var r := l.AttachChild(parent, child, role, check);
    if r.Ok? {
      AttachAttached(g, l.G(), r.value, Layer.NewChild(g, parent, child, role), child, parent);
    }
  }

  method StepRootAttach(l: Layer, child: NodeId, user: Parent, role: Role, perm: Mask, shared: Mask, check: Answers,
                        ghost plain: bool)
    requires Steady(l, plain) && child in l.nodes && !user.Bds? && l.outside[child] >= 1
    modifies l
    ensures Steady(l, plain)
  {
    hide Acyclic, NodesOk, RefsOk, Booked, LinksCover, WF;
    ghost var g := l.G();
    var r := l.RootAttachChild(child, user, role, perm, shared, check);
    if r.Ok? {
      AttachAttached(g, l.G(), r.value, Edge(user, None, role, perm, shared, false), child, child);
    }
  }

  method StepRootUnref(l: Layer, e: EdgeId, check: Answers, ghost plain: bool)
    requires Steady(l, plain) && e in l.edges && !l.edges[e].frozen
    modifies l
    ensures Steady(l, plain)
  {
    hide Acyclic, NodesOk, RefsOk, Booked, LinksCover, WF;
    ghost var g := l.G();
    var err := l.RootUnrefChild(e, check);
    if err == None {
      UnrefAttached(g, l.G(), e, g.edges[e].target.value);
    }
  }

  /** Whoever owns a link regrants it. */
  method StepRegrant(l: Layer, e: EdgeId, perm: Mask, shared: Mask, check: Answers, ghost plain: bool)
    requires Steady(l, plain) && e in l.edges
    requires plain && Driven(l.G(), e) ==> Looser(Wanted(l.G(), e), Grant(perm, shared))
    modifies l
    ensures Steady(l, plain) && Regrants(old(l.G()), l.G(), e, Grant(perm, shared))
  {
    hide Acyclic, NodesOk, RefsOk, Booked, LinksCover, WF, Wanted, Layer.RegrantedAndFresh;
    ghost var g := l.G();
    var _, why := l.ChildTrySetPerm(e, perm, shared, check);
    if why == None {
      RegrantAttached(g, l.G(), e, Grant(perm, shared));
    }
  }

  /** The link holds the new grant and what is below was refreshed, or nothing changed. */
  ghost predicate Regrants(g: Graph, h: Graph, e: EdgeId, w: Grant) {
    h.edges == g.edges || Layer.RegrantedAndFresh(g, h, e, w)
  }

  /** A node takes what it needs on a child. */
  method StepRefresh(l: Layer, e: EdgeId, check: Answers, ghost plain: bool)
    requires Steady(l, plain) && e in l.edges && l.edges[e].parent.Bds?
    modifies l
    ensures Steady(l, plain)
  {
    hide Acyclic, NodesOk, RefsOk, Booked, LinksCover, WF;
    ghost var g := l.G();
    var _, why := l.ChildRefreshPerms(e, check);
    if why == None {
      RegrantAttached(g, l.G(), e, Wanted(g, e));
    }
  }

  method StepUnref(l: Layer, n: NodeId, check: Answers, ghost plain: bool)
    requires Steady(l, plain) && n in l.nodes && l.outside[n] >= 1
    modifies l
    ensures Steady(l, plain)
  {
    hide Acyclic, NodesOk, RefsOk, Booked, LinksCover, WF;
    var _ := DoUnref(l, n, check);
  }

  /** References to a node come and go. */
  method StepReference(l: Layer, op: Op, check: Answers, ghost plain: bool)
    requires Steady(l, plain) && (op.New? || op.Ref? || op.Unref? || op.RunScheduled?)
    requires plain && op.New? ==> !op.node.forceShare
    modifies l
    ensures Steady(l, plain)
  {
    hide Acyclic, NodesOk, RefsOk, Booked, LinksCover, WF;
    match op
    case New(n, node) =>
      if n !in l.nodes && n !in l.outside && n !in l.scheduled {
        l.NewNode(n, node);
      }
    case Ref(n) =>
      if n in l.nodes {
        l.TakeRef(n);
      }
    case Unref(n) =>
      if n in l.nodes && l.outside[n] >= 1 {
        StepUnref(l, n, check, plain);
      }
    case RunScheduled =>
      if l.scheduled != [] {
        var n := l.TakeScheduled();
        StepUnref(l, n, check, plain);
      }
  }

  /** One call. A caller that would break an operation's own assertions is not
      part of any run: such a call does nothing here. */
  method Step(l: Layer, op: Op, check: Answers, ghost plain: bool)
    requires Steady(l, plain) && (plain ==> Modest(l.G(), op))
    modifies l
    ensures Steady(l, plain)
    ensures op.TrySetPerm? && op.e in old(l.edges) ==> Regrants(old(l.G()), l.G(), op.e, Grant(op.perm, op.shared))
  {
    hide Acyclic, NodesOk, RefsOk, Booked, LinksCover, WF, Regrants, Wanted;
    match op
    case AttachChild(parent, child, role) =>
      if parent in l.nodes && child in l.nodes && l.nodes[parent].hasDriver && ValidRole(role)
          && l.outside[child] >= 1 {
        StepAttach(l, parent, child, role, check, plain);
      }
    case RootAttach(child, user, role, perm, shared) =>
      if child in l.nodes && !user.Bds? && l.outside[child] >= 1 {
        StepRootAttach(l, child, user, role, perm, shared, check, plain);
      }
    case RootUnref(e) =>
      if e in l.edges && !l.edges[e].frozen {
        StepRootUnref(l, e, check, plain);
      }
    case TrySetPerm(e, perm, shared) =>
      if e in l.edges {
        StepRegrant(l, e, perm, shared, check, plain);
      }
    case RefreshChild(e) =>
      if e in l.edges && l.edges[e].parent.Bds? {
        StepRefresh(l, e, check, plain);
      }
    case Freeze(e, frozen) =>
      if e in l.edges {
        l.SetFrozen(e, frozen);
      }
    case Replace(from, to, autoSkip) =>
      if from in l.nodes && to in l.nodes && from != to {
        StepReplace(l, from, to, autoSkip, check, plain);
      }
    case Append(bsNew, top) =>
      if bsNew in l.nodes && top in l.nodes && bsNew != top && l.nodes[bsNew].hasDriver {
        StepAppend(l, bsNew, top, check, plain);
      }
    case SetBacking(bs, backing) =>
      if bs in l.nodes && (backing.Some? ==> backing.value in l.nodes) {
        StepSetBacking(l, bs, backing, check, plain);
      }
    case _ =>
      StepReference(l, op, check, plain);
  }

  /** The graphs of a run, one before each call and one after the last. */
  ghost predicate Traced(ops: seq<(Op, Answers)>, trace: seq<Graph>) {
    && |trace| == |ops| + 1 && (forall i :: 0 <= i <= |ops| ==> WF(trace[i]))
    && (forall i :: 0 <= i < |ops| && ops[i].0.TrySetPerm? && ops[i].0.e in trace[i].edges ==>
          Regrants(trace[i], trace[i + 1], ops[i].0.e, Grant(ops[i].0.perm, ops[i].0.shared)))
  }

  /** Every run from an empty layer, whatever fails on the way: the graph is well
      formed and acyclic, no node's users conflict, reference counts are exact, and
      if every call was modest every link covers what its owner calls for. */
  method Run(ops: seq<(Op, Answers)>) returns (l: Layer, ghost trace: seq<Graph>)
    ensures fresh(l) && l.Inv() && AllAttached(l.edges)
    ensures Traced(ops, trace) && trace[0].nodes == map[] && trace[|ops|] == l.G()
    ensures (forall i :: 0 <= i < |ops| ==> Modest(trace[i], ops[i].0)) ==> LinksCover(l.G())
  {
    hide Acyclic, NodesOk, RefsOk, Booked, LinksCover, WF, Steady, Regrants, Modest;
    ghost var plain := true;
    l := Start(plain);
    SteadyGives(l, plain);
    trace := [l.G()];
    for i := 0 to |ops|
      invariant fresh(l) && Steady(l, plain) && WF(l.G())
      invariant Traced(ops[..i], trace) && trace[0].nodes == map[] && trace[i] == l.G()
      invariant plain <==> forall k :: 0 <= k < i ==> Modest(trace[k], ops[k].0)
    {
      plain := plain && Modest(l.G(), ops[i].0);
      SteadyLess(l);
      Step(l, ops[i].0, ops[i].1, plain);
      SteadyGives(l, plain);
      trace := trace + [l.G()];
      assert ops[..i + 1] == ops[..i] + [ops[i]];
    }
    assert ops[..|ops|] == ops;
    SteadyGives(l, plain);
  }

  lemma SteadyLess(l: Layer)
    requires exists plain :: Steady(l, plain)
    ensures Steady(l, false)
  {
  }

  lemma SteadyGives(l: Layer, plain: bool)
    requires Steady(l, plain)
    ensures l.Inv() && AllAttached(l.edges) && WF(l.G()) && (plain ==> LinksCover(l.G()))
  {
  }

  method Start(ghost plain: bool) returns (l: Layer)
    ensures fresh(l) && Steady(l, plain) && l.nodes == map[]
  {
    l := new Layer();
    forall a, b ensures !Link(l.G(), a, b) {
    }
  }

  // ---------------------------------------------------------------------------
  // Two graphs on which more was hoped for.

  const FILTER := Role(false, false, true, false, true)
  const PLAIN := Node(Flags(true, false, false), false, true, true, true, true, true)

  /** Node 1 is read-only, as every node opened with force_share is. */
  const SHARED := PLAIN.(forceShare := true, flags := Flags(false, false, false))

  /** A filter, node 0, whose only user shares nothing, on the forced-shared node 1 or,
      when node 2 has taken its place, on that. */
  ghost function ForcedGraph(below: NodeId): Graph {
    Graph(map[0 := PLAIN, 1 := SHARED, 2 := PLAIN],
          map[0 := Edge(Bds(0), Some(below), FILTER, NONE, ALL, false),
              1 := Edge(Backend(0), Some(0), FILTER, NONE, NONE, false)],
          map[0 := [1], 1 := if below == 1 then [0] else [], 2 := if below == 2 then [0] else []],
          map[0 := [0], 1 := [], 2 := []])
  }

  lemma ForcedWellFormed(below: NodeId)
    requires below in {1, 2}
    ensures WF(ForcedGraph(below)) && Acyclic(ForcedGraph(below)) && NodesOk(ForcedGraph(below))
    ensures forall n, m :: n in {1, 2} && m != n ==> !Reaches(ForcedGraph(below), n, m)
    ensures Cumulative(ForcedGraph(below), 0) == Grant(NONE, NONE)
  {
    var g := ForcedGraph(below);
    ForcedWF(below);
    ForcedNodes(below);
    hide WF, NodesOk, Cumulative;
    forall a, b | Link(g, a, b) ensures a == 0 && b == below {
      var e :| ChildOf(g.edges, e, a) && Points(g.edges, e, b);
    }
    forall n, m | n in {1, 2} && m != n ensures !Reaches(g, n, m) {
      StaysAlone(g, n, m);
    }
  }

  lemma ForcedWF(below: NodeId)
    requires below in {1, 2}
    ensures WF(ForcedGraph(below))
  {
    var g := ForcedGraph(below);
    forall e | e in g.edges ensures EdgeOk(g, e) { }
    assert ListsOk(g, 0) && ListsOk(g, 1) && ListsOk(g, 2);
  }

  lemma ForcedNodes(below: NodeId)
    requires below in {1, 2} && WF(ForcedGraph(below))
    ensures NodesOk(ForcedGraph(below)) && Cumulative(ForcedGraph(below), 0) == Grant(NONE, NONE)
  {
    var g := ForcedGraph(below);
    assert Total(g.edges, [1]) == Grant(NONE, NONE);
    assert Total(g.edges, [0]).perm == NONE && Total(g.edges, []).perm == NONE;
    forall n | n in g.nodes ensures NodeOk(g, n) {
      assert ListsOk(g, n);
    }
  }

  lemma StaysAlone(g: Graph, n: NodeId, m: NodeId)
    requires WF(g) && n in g.nodes && n != m && forall b :: !Link(g, n, b)
    ensures !Reaches(g, n, m)
  {
    if Reaches(g, n, m) {
      ReachesStaysIn(g, {n}, n, m);
    }
  }

  /** Replacing node 1 by node 2 moves a link that then shares more than its owner may. */
  lemma ForcedSharingOutlivesItsNode()
    ensures var g, h := ForcedGraph(1), ForcedGraph(2);
            && WF(g) && Acyclic(g) && NodesOk(g) && LinksCover(g)
            && Layer.MayReplace(g, 1, 2, false) && Layer.MovedAndFresh(g, h, 1, 2, MovableParents(g, 1, 2))
            && WF(h) && NodesOk(h) && !LinksCover(h)
  {
    var g, h := ForcedGraph(1), ForcedGraph(2);
    ForcedWellFormed(1);
    ForcedWellFormed(2);
    hide NodesOk, Acyclic, Reaches, LinksCover, WF, Layer.MayReplace, Layer.MovedAndFresh, MovableParents;
    ForcedCovers(1);
    ForcedCovers(2);
    ForcedMoved();
  }

  lemma ForcedCovers(below: NodeId)
    requires below in {1, 2} && WF(ForcedGraph(below)) && Cumulative(ForcedGraph(below), 0) == Grant(NONE, NONE)
    ensures LinksCover(ForcedGraph(below)) <==> below == 1
  {
    var g := ForcedGraph(below);
    assert EdgeOk(g, 0);
    hide WF, Cumulative;
    assert forall e :: Driven(g, e) ==> e == 0;
    assert Driven(g, 0);
  }

  lemma ForcedMoved()
    requires WF(ForcedGraph(1)) && WF(ForcedGraph(2)) && !Reaches(ForcedGraph(1), 2, 0)
    requires forall n :: n in {1, 2} ==> !Reaches(ForcedGraph(2), n, 0)
    ensures Layer.MayReplace(ForcedGraph(1), 1, 2, false)
    ensures Layer.MovedAndFresh(ForcedGraph(1), ForcedGraph(2), 1, 2, MovableParents(ForcedGraph(1), 1, 2))
  {
    hide WF, Reaches, Wanted;
    var g, h := ForcedGraph(1), ForcedGraph(2);
    assert MovableParents(g, 1, 2) == {0};
    assert h.edges == MoveEdges(g.edges, {0}, 2);
    assert MovedFrom(g, h, 1, 2, {0});
    assert Refreshed(h, h, Below(h, {1, 2}));
  }

  /** An image of odd size with two users; user 0 writes, user 1 may resize. */
  ghost function OddGraph(edges: map<EdgeId, Edge>, users: seq<EdgeId>): Graph {
    Graph(map[0 := PLAIN.(sizeAligned := false)], edges, map[0 := users], map[0 := []])
  }

  const WRITER := Edge(Backend(0), Some(0), FILTER, NONE.(write := true), ALL, false)
  const RESIZER := Edge(Backend(1), Some(0), FILTER, NONE.(resize := true), ALL, false)

  /** Dropping a user is a loosening, and still the refresh after it is refused. */
  lemma LooseningCanBeRefused(check: Answers)
    ensures var g := OddGraph(map[0 := WRITER, 1 := RESIZER], [0, 1]);
            var h := OddGraph(map[0 := WRITER], [0]);
            && WF(g) && NodesOk(g) && LinksCover(g) && Without(g, h, 1)
            && FirstError(h, [0], check) == Some(Unaligned)
  {
    var g := OddGraph(map[0 := WRITER, 1 := RESIZER], [0, 1]);
    var h := OddGraph(map[0 := WRITER], [0]);
    OddWF(g);
    OddWF(h);
    assert h.edges - {1} == g.edges - {1};
    assert Total(h.edges, [0]) == Grant(NONE.(write := true), ALL) by {
      assert [0][1..] == [];
    }
    assert NodeOk(g, 0) by {
      assert ListsOk(g, 0);
    }
    assert ConflictFreeAt(h, 0) by {
      assert ListsOk(h, 0);
    }
    hide WF;
    OneNode(h, check);
  }

  lemma OddWF(g: Graph)
    requires 0 in g.parents && g == OddGraph(g.edges, g.parents[0]) && NoDup(g.parents[0])
    requires forall e :: e in g.edges <==> e in g.parents[0]
    requires forall e :: e in g.edges ==> g.edges[e].target == Some(0) && !g.edges[e].parent.Bds?
    ensures WF(g)
  {
    forall e | e in g.edges ensures EdgeOk(g, e) { }
    assert ListsOk(g, 0);
  }

  lemma OneNode(h: Graph, check: Answers)
    requires WF(h) && 0 in h.nodes
    ensures Elems([0]) <= h.nodes.Keys
    ensures NodeError(h, 0, check).Some? ==> FirstError(h, [0], check) == NodeError(h, 0, check)
  {
  }
}
