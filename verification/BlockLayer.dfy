/** The block layer's mutable graph: the primitives that log what they change, the
    transactions built from them, and the public graph operations. */
module BlockLayer {
  import opened Options
  import opened Perms
  import opened Seqs
  import opened BlockGraph
  import opened Reach
  import opened Topo
  import opened Refresh
  import opened PermInvariant
  import opened Tran
  import opened Surgery

  datatype Outcome<+T> = Ok(value: T) | Refused(error: Error)

  class Layer {
    var nodes: map<NodeId, Node>
    var edges: map<EdgeId, Edge>
    var parents: map<NodeId, seq<EdgeId>>
    var children: map<NodeId, seq<EdgeId>>
    var refcnt: map<NodeId, int>
    var nextEdge: EdgeId             // links with this number or a larger one are free
    var log: seq<Action>             // the open transaction, newest record first
    var scheduled: seq<NodeId>       // bottom halves that will each drop one reference
    var outside: multiset<NodeId>    // references held by nobody in the graph
    ghost var base: map<EdgeId, Edge>  // the links when the transaction was opened

    /** No nodes yet. */
    constructor ()
      ensures nodes == map[] && edges == map[] && refcnt == map[] && outside == multiset{} && scheduled == []
      ensures Inv()
    {
      nodes, edges, parents, children, refcnt := map[], map[], map[], map[], map[];
      nextEdge, log, scheduled, outside, base := 0, [], [], multiset{}, map[];
    }

    function G(): Graph
      reads this
    {
      Graph(nodes, edges, parents, children)
    }

    /** References not held by links or by the log. */
    ghost function Others(): multiset<NodeId>
      reads this
    {
      multiset(scheduled) + outside
    }

    ghost predicate Shape()
      reads this
    {
      && WF(G())
      && Booked(nodes.Keys, edges, refcnt, log, Others(), base)
      && NumbersBelow(edges, nextEdge)
      && (forall n :: n in scheduled ==> n in nodes)
    }

    static ghost predicate NumbersBelow(edges: map<EdgeId, Edge>, k: nat) {
      forall e :: e in edges ==> e < k
    }

    /** Rolled back, every node would still be referenced. */
    ghost predicate BaseAlive()
      reads this
    {
      forall n :: n in nodes ==> |In(base, n)| + Others()[n] >= 1
    }

    ghost predicate Alive()
      reads this
    {
      forall n :: n in nodes ==> n in refcnt && refcnt[n] >= 1
    }

    /** What holds between operations. */
    ghost predicate Inv()
      reads this
    {
      && Shape() && log == []
      && Alive()
      && Acyclic(G()) && NodesOk(G())
    }

    /** The same, in terms of the values alone. */
    static ghost predicate Sound(g: Graph, refcnt: map<NodeId, int>, nextEdge: EdgeId, scheduled: seq<NodeId>,
                                 outside: multiset<NodeId>) {
      && WF(g) && RefsOk(g.nodes.Keys, g.edges, refcnt, [], multiset(scheduled) + outside)
      && NumbersBelow(g.edges, nextEdge) && (forall n :: n in scheduled ==> n in g.nodes)
      && (forall n :: n in g.nodes ==> n in refcnt && refcnt[n] >= 1)
      && Acyclic(g) && NodesOk(g)
    }

    lemma InvIsSound()
      ensures Inv() <==> log == [] && base == edges && Sound(G(), refcnt, nextEdge, scheduled, outside)
    {
      hide WF, Acyclic, NodesOk, RefsOk, NumbersBelow;
      BookEmpty(nodes.Keys, edges, refcnt, Others(), base);
    }

    lemma InvBase()
      requires Inv()
      ensures BaseAlive() && base == edges
    {
      forall n | n in nodes ensures |In(base, n)| + Others()[n] >= 1 {
        assert RefsAt(edges, refcnt, log, Others(), n);
      }
    }

    // -------------------------------------------------------------------------
    // Primitives.

    /** bdrv_child_set_perm. */
    method ChildSetPerm(e: EdgeId, perm: Mask, shared: Mask)
      requires Shape() && e in edges
      modifies this`edges, this`log
      ensures Shape()
      ensures G() == SetPerm(old(G()), e, perm, shared)
      ensures log == [SetPermAct(e, old(edges[e].perm), old(edges[e].shared))] + old(log)
      ensures KeepsRemovals(old(edges), old(log))
    {
      hide WF, Booked;
      ghost var g := G();
      log := [SetPermAct(e, edges[e].perm, edges[e].shared)] + log;
      edges := edges[e := edges[e].(perm := perm, shared := shared)];
      assert G() == SetPerm(g, e, perm, shared);
      BookSetPerm(nodes.Keys, g.edges, refcnt, old(log), Others(), base, e, perm, shared);
      assert log[1..] == old(log);
      if RemovalsOk(g.edges, old(log)) {
        RemovedDetached(g.edges, old(log));
        RemovalsKept(g.edges, edges, old(log));
      }
    }

    /** Nothing was removed or redirected since the log was `log0`. */
    ghost predicate KeepsRemovals(edges0: map<EdgeId, Edge>, log0: seq<Action>)
      reads this
    {
      && Removed(log) == Removed(log0) && (RemovalsOk(edges0, log0) ==> RemovalsOk(edges, log))
      && (NoRedirect(log0) ==> NoRedirect(log))
    }

    /** The detaching half of bdrv_replace_child_noperm. */
    method DetachLink(e: EdgeId)
      requires WF(G()) && e in edges && edges[e].target.Some?
      modifies this`edges, this`parents, this`children
      ensures G() == Detach(old(G()), e)
    {
      var from := edges[e].target.value;
      assert EdgeOk(G(), e) && ListsOk(G(), from);
      if edges[e].parent.Bds? {
        var p := edges[e].parent.node;
        assert ListsOk(G(), p);
        children := children[p := Remove(children[p], e)];
      }
      parents := parents[from := Remove(parents[from], e)];
      edges := edges[e := edges[e].(target := None)];
    }

    /** And the attaching half. */
    method AttachLink(e: EdgeId, t: NodeId)
      requires WF(G()) && e in edges && edges[e].target == None && t in nodes
      modifies this`edges, this`parents, this`children
      ensures G() == Attach(old(G()), e, t)
    {
      assert EdgeOk(G(), e);
      edges := edges[e := edges[e].(target := Some(t))];
      parents := parents[t := Prepend(e, parents[t])];
      if edges[e].parent.Bds? {
        var p := edges[e].parent.node;
        children := children[p := Prepend(e, children[p])];
      }
    }

    /** bdrv_replace_child_noperm, with its assertion that the link is not frozen. */
    method ReplaceChildNoPerm(e: EdgeId, t: Option<NodeId>)
      requires WF(G()) && e in edges && edges[e].target != t && (t.Some? ==> t.value in nodes)
      requires !edges[e].frozen
      modifies this`edges, this`parents, this`children
      ensures WF(G()) && edges == old(edges)[e := old(edges)[e].(target := t)]
    {
      hide WF, Detach, Attach;
      if edges[e].target.Some? {
        DetachLink(e);
      }
      if t.Some? {
        AttachLink(e, t.value);
      }
    }

    /** bdrv_replace_child_tran: the reference to the old node moves from the link
        to the record, the new node gets a reference of its own. */
    method ReplaceChildTran(e: EdgeId, t: Option<NodeId>)
      requires Shape() && e in edges && edges[e].target.Some? && edges[e].target != t && !edges[e].frozen
      requires t.Some? ==> t.value in nodes
      modifies this`edges, this`parents, this`children, this`log, this`refcnt
      ensures Shape()
      ensures edges == old(edges)[e := old(edges)[e].(target := t)]
      ensures log == [ReplaceAct(e, old(edges[e].target))] + old(log)
      ensures refcnt == Bump(old(refcnt), t, 1)
    {
      hide WF, Booked;
      LinkEndsExist(G(), e);
      BookKeys(nodes.Keys, edges, refcnt, log, Others(), base);
      BookReplace(nodes.Keys, edges, refcnt, log, Others(), base, e, t);
      log := [ReplaceAct(e, edges[e].target)] + log;
      refcnt := Bump(refcnt, t, 1);
      ReplaceChildNoPerm(e, t);
    }

    /** A freshly numbered link is put in place and logged. */
    method NewLink(c: Edge, child: NodeId) returns (e: EdgeId)
      requires Shape() && child in nodes && c.target == None && !c.frozen
      requires c.parent.Bds? ==> c.parent.node in nodes && ValidRole(c.role)
      modifies this`edges, this`parents, this`children, this`log, this`refcnt, this`nextEdge
      ensures Shape()
      ensures Attached(old(G()), G(), e, c, child)
      ensures log == [AttachAct(e)] + old(log) && refcnt == Bump(old(refcnt), Some(child), 1)
    {
      hide WF, Booked, NumbersBelow;
      e := nextEdge;
      NextNumber(edges, nextEdge, c.(target := Some(child)));
      BookKeys(nodes.Keys, edges, refcnt, log, Others(), base);
      BookAttach(nodes.Keys, edges, refcnt, log, Others(), base, e, c.(target := Some(child)));
      AddEdgeWF(G(), e, c);
      edges := edges[e := c];
      nextEdge := nextEdge + 1;
      refcnt := Bump(refcnt, Some(child), 1);
      ReplaceChildNoPerm(e, Some(child));
      log := [AttachAct(e)] + log;
      assert edges == old(edges)[e := c.(target := Some(child))];
    }

    static lemma AddEdgeWF(g: Graph, e: EdgeId, c: Edge)
      requires WF(g) && e !in g.edges && c.target == None
      requires c.parent.Bds? ==> c.parent.node in g.nodes && ValidRole(c.role)
      ensures WF(Graph(g.nodes, g.edges[e := c], g.parents, g.children))
    {
      assert AddEdge(g, e, c) == Graph(g.nodes, g.edges[e := c], g.parents, g.children);
    }

    static lemma NextNumber(edges: map<EdgeId, Edge>, k: nat, c: Edge)
      requires NumbersBelow(edges, k)
      ensures k !in edges && NumbersBelow(edges[k := c], k + 1)
    {
    }

    /** bdrv_attach_child_common. */
    method AttachChildCommon(child: NodeId, parent: Parent, role: Role, perm: Mask, shared: Mask, check: Answers)
      returns (r: Outcome<EdgeId>)
      requires Shape() && child in nodes
      requires parent.Bds? ==> parent.node in nodes && ValidRole(role)
      modifies this`edges, this`parents, this`children, this`log, this`refcnt, this`nextEdge
      ensures Shape()
      ensures LinkBar(nodes[child], parent, child, perm, check) == if r.Refused? then Some(r.error) else None
      ensures r.Refused? ==> G() == old(G()) && log == old(log) && refcnt == old(refcnt)
      ensures r.Ok? ==> Attached(old(G()), G(), r.value, Edge(parent, None, role, perm, shared, false), child)
      ensures r.Ok? ==> log == [AttachAct(r.value)] + old(log) && refcnt == Bump(old(refcnt), Some(child), 1)
    {
      hide WF, Booked;
      if nodes[child].flags.inactive && !Sub(perm, NONE.(consistentRead := true)) {
        return Refused(Inactive);
      }
      if !check.joins(parent, child) {
        return Refused(ContextClash);
      }
      var e := NewLink(Edge(parent, None, role, perm, shared, false), child);
      r := Ok(e);
    }

    /** bdrv_remove_child: the link lets go of its node and is freed on commit. */
    method RemoveChild(e: EdgeId)
      requires Shape() && e in edges && edges[e].target.Some? && !edges[e].frozen
      modifies this`edges, this`parents, this`children, this`log, this`refcnt
      ensures Shape()
      ensures edges == old(edges)[e := old(edges)[e].(target := None)]
      ensures log == [RemoveAct(e), ReplaceAct(e, old(edges[e].target))] + old(log)
      ensures refcnt == old(refcnt)
    {
      hide WF, Booked;
      ReplaceChildTran(e, None);
      BookRemove(nodes.Keys, edges, refcnt, log, Others(), base, e);
      log := [RemoveAct(e)] + log;
    }

    // -------------------------------------------------------------------------
    // Ending a transaction.

    /** tran_abort: records are undone newest first. Afterwards every link is as it
        was; no node was deleted on the way. */
    method TranAbort()
      requires Shape() && BaseAlive()
      modifies this`edges, this`parents, this`children, this`log, this`refcnt, this`scheduled
      ensures Shape() && log == [] && edges == base
      ensures Alive()
      ensures NoRedirect(old(log)) ==> refcnt == old(refcnt)
    {
      while log != []
        invariant Shape() && BaseAlive()
        invariant NoRedirect(old(log)) ==> NoRedirect(log) && refcnt == old(refcnt)
        decreases |log|
      {
        UndoNewest();
      }
      forall n | n in nodes ensures refcnt[n] >= 1 {
        assert RefsAt(edges, refcnt, log, Others(), n);
      }
    }

    method UndoNewest()
      requires Shape() && BaseAlive() && log != []
      modifies this`edges, this`parents, this`children, this`log, this`refcnt, this`scheduled
      ensures Shape() && BaseAlive() && log == old(log[1..])
      ensures !old(log[0]).ReplaceAct? ==> refcnt == old(refcnt)
    {
      hide WF, RefsOk, Rolls, NumbersBelow;
      var a := log[0];
      RollsBack(nodes.Keys, edges, log, base);
      UndoNumbers(edges, a, nextEdge);
      assert log == [a] + log[1..];
      log := log[1..];
      match a
      case SetPermAct(e, p, s) =>
        UndoSetPerm(e, p, s);
      case ReplaceAct(e, t) =>
        UndoReplace(e, t);
      case AttachAct(e) =>
        UndoAttach(e);
      case RemoveAct(_) =>
        RefsUndoNeutral(nodes.Keys, edges, refcnt, log, Others(), a);
    }

    static lemma UndoNumbers(edges: map<EdgeId, Edge>, a: Action, k: nat)
      requires NumbersBelow(edges, k) && a.edge in edges
      ensures NumbersBelow(Undo(edges, a), k)
    {
    }

    /** bdrv_child_set_perm_abort. */
    method UndoSetPerm(e: EdgeId, p: Mask, s: Mask)
      requires WF(G()) && e in edges
      requires RefsOk(nodes.Keys, edges, refcnt, [SetPermAct(e, p, s)] + log, Others())
      modifies this`edges
      ensures WF(G()) && edges == Undo(old(edges), SetPermAct(e, p, s))
      ensures RefsOk(nodes.Keys, edges, refcnt, log, Others())
    {
      hide WF, RefsOk;
      ghost var g := G();
      edges := edges[e := edges[e].(perm := p, shared := s)];
      assert G() == SetPerm(g, e, p, s);
      RefsUndoNeutral(nodes.Keys, g.edges, refcnt, log, Others(), SetPermAct(e, p, s));
      RefsSetPerm(nodes.Keys, g.edges, refcnt, log, Others(), e, p, s);
    }

    /** bdrv_replace_child_abort; dropping the new node's reference deletes nothing. */
    method UndoReplace(e: EdgeId, t: Option<NodeId>)
      requires WF(G()) && BaseAlive() && CanUndo(nodes.Keys, edges, ReplaceAct(e, t))
      requires RefsOk(nodes.Keys, edges, refcnt, [ReplaceAct(e, t)] + log, Others())
      requires Rolls(nodes.Keys, Undo(edges, ReplaceAct(e, t)), log, base)
      modifies this`edges, this`parents, this`children, this`refcnt
      ensures WF(G()) && edges == Undo(old(edges), ReplaceAct(e, t))
      ensures RefsOk(nodes.Keys, edges, refcnt, log, Others())
    {
      hide WF, RefsOk, Rolls;
      ghost var g := G();
      var newBs := edges[e].target;
      LinkEndsExist(g, e);
      RefsOf(nodes.Keys, edges, refcnt, [ReplaceAct(e, t)] + log, Others());
      ReplaceChildNoPerm(e, t);
      RefsUndoReplace(nodes.Keys, g.edges, refcnt, log, Others(), e, t);
      refcnt := Bump(refcnt, newBs, -1);
      if newBs.Some? {
        RollKeepsEnough(nodes.Keys, edges, log, base, newBs.value);
        RefsOf(nodes.Keys, edges, refcnt, log, Others());
        assert refcnt[newBs.value] >= 1;
      }
    }

    /** bdrv_attach_child_common_abort: the link is detached and freed. */
    method UndoAttach(e: EdgeId)
      requires WF(G()) && CanUndo(nodes.Keys, edges, AttachAct(e))
      requires RefsOk(nodes.Keys, edges, refcnt, [AttachAct(e)] + log, Others())
      modifies this`edges, this`parents, this`children, this`scheduled
      ensures WF(G()) && edges == Undo(old(edges), AttachAct(e))
      ensures RefsOk(nodes.Keys, edges, refcnt, log, Others())
      ensures scheduled == old(scheduled) + [old(edges[e].target.value)] && old(edges[e].target.value) in nodes
    {
      hide WF, RefsOk;
      ghost var g := G();
      var bs := edges[e].target.value;
      LinkEndsExist(g, e);
      ReplaceChildNoPerm(e, None);
      ghost var d := G();
      edges := edges - {e};
      assert G() == DropEdge(d, e);
      assert edges == g.edges - {e};
      ghost var others := Others();
      scheduled := scheduled + [bs];
      assert Others() == others + multiset{bs};
      RefsUndoAttach(nodes.Keys, g.edges, refcnt, log, others, e, bs);
    }

    /** tran_commit: replaced nodes are unreferenced later, removed links are freed. */
    method TranCommit()
      requires Shape() && RemovalsOk(edges, log)
      modifies this`edges, this`log, this`scheduled, this`base
      ensures Shape() && log == [] && edges == old(edges) - Removed(old(log))
    {
      RollsNodes(nodes.Keys, edges, log, base);
      while log != []
        invariant Committing(old(edges) - Removed(old(log)))
        decreases |log|
      {
        CommitNewest(old(edges) - Removed(old(log)));
      }
      base := edges;
    }

    /** What holds while records are committed one by one; `goal` is what will be left. */
    ghost predicate Committing(goal: map<EdgeId, Edge>)
      reads this
    {
      && WF(G()) && RefsOk(nodes.Keys, edges, refcnt, log, Others())
      && OldNodesIn(nodes.Keys, log) && RemovalsOk(edges, log) && edges - Removed(log) == goal
      && NumbersBelow(edges, nextEdge) && (forall n :: n in scheduled ==> n in nodes)
    }

    method CommitNewest(ghost goal: map<EdgeId, Edge>)
      requires log != [] && Committing(goal)
      modifies this`edges, this`log, this`scheduled
      ensures log == old(log)[1..] && Committing(goal)
    {
      hide WF, RefsOk;
      var a := log[0];
      ghost var rest := log[1..];
      assert log == [a] + rest;
      assert OldNodesIn(nodes.Keys, rest);
      log := log[1..];
      match a
      case ReplaceAct(e, t) =>
        if t.Some? {
          ghost var others := Others();
          scheduled := scheduled + [t.value];
          assert Others() == others + multiset{t.value};
          RefsCommitReplace(nodes.Keys, edges, refcnt, log, others, e, t.value);
        } else {
          RefsCommitNothing(nodes.Keys, edges, refcnt, log, Others(), e);
        }
      case RemoveAct(e) =>
        FreeLink(e, goal);
      case _ =>
        RefsUndoNeutral(nodes.Keys, edges, refcnt, log, Others(), a);
    }

    /** bdrv_child_free, from the commit of bdrv_remove_child. */
    method FreeLink(e: EdgeId, ghost goal: map<EdgeId, Edge>)
      requires WF(G()) && RefsOk(nodes.Keys, edges, refcnt, [RemoveAct(e)] + log, Others())
      requires e in edges && edges[e].target == None && e !in Removed(log)
      requires RemovalsOk(edges, log) && edges - ({e} + Removed(log)) == goal && NumbersBelow(edges, nextEdge)
      modifies this`edges
      ensures WF(G()) && RefsOk(nodes.Keys, edges, refcnt, log, Others())
      ensures RemovalsOk(edges, log) && edges - Removed(log) == goal && NumbersBelow(edges, nextEdge)
    {
      hide WF, RefsOk;
      ghost var g := G();
      RefsUndoNeutral(nodes.Keys, edges, refcnt, log, Others(), RemoveAct(e));
      RefsDropDetached(nodes.Keys, edges, refcnt, log, Others(), e);
      RemovedDetached(edges, log);
      RemovalsKept(edges, edges - {e}, log);
      edges := edges - {e};
      assert G() == DropEdge(g, e);
      assert edges - Removed(log) == g.edges - ({e} + Removed(log));
    }

    // -------------------------------------------------------------------------
    // Refreshing permissions.

    /** bdrv_node_refresh_perm. */
    method NodeRefreshPerm(n: NodeId, check: Answers) returns (err: Option<Error>)
      requires Shape() && n in nodes
      modifies this`edges, this`log
      ensures Shape() && KeepsRemovals(old(edges), old(log))
      ensures err == HeldError(nodes[n], n, Cumulative(old(G()), n), check)
      ensures err == None ==> G() == RefreshNode(old(G()), n)
      ensures err.Some? ==> G() == old(G())
    {
      hide WF, Booked, RefreshNode;
      ghost var g := G();
      var h := GetCumulativePerm(G(), n);
      err := HeldError(nodes[n], n, h, check);
      if err.Some? {
        return;
      }
      if !nodes[n].hasDriver {
        RefreshUndriven(g, n);
        return;
      }
      NothingSet(g, n);
      var i := 0;
      while i < |children[n]|
        invariant 0 <= i <= |children[n]|
        invariant Shape() && KeepsRemovals(old(edges), old(log))
        invariant PartlySet(g, n, i, edges)
      {
        var c := children[n][i];
        PartlyStep(g, n, i, edges);
        LinkEndsExist(g, c);
        var w := ChildPerms(nodes[n].flags, nodes[edges[c].target.value].forceShare, edges[c].role, h);
        ChildSetPerm(c, w.perm, w.shared);
        i := i + 1;
      }
      PartlyDone(g, n, edges);
      RefreshShape(g, n);
    }

    /** bdrv_do_refresh_perms. */
    method DoRefreshPerms(list: seq<NodeId>, check: Answers) returns (err: Option<Error>)
      requires Shape() && Elems(list) <= nodes.Keys
      modifies this`edges, this`log
      ensures Shape() && KeepsRemovals(old(edges), old(log))
      ensures err == FirstError(old(G()), list, check)
      ensures err == None ==> G() == Pushed(old(G()), list)
    {
      hide WF, Booked, RefreshNode, ConflictFreeAt, FirstError, Pushed;
      ghost var g := G();
      var i := 0;
      while i < |list|
        invariant 0 <= i <= |list| && Elems(list[i..]) <= nodes.Keys
        invariant Shape() && KeepsRemovals(old(edges), old(log))
        invariant FirstError(G(), list[i..], check) == FirstError(g, list, check)
        invariant Pushed(G(), list[i..]) == Pushed(g, list)
      {
        assert list[i..][1..] == list[i + 1..];
        FirstOfList(G(), list[i..], check);
        var conflict := ParentPermsConflict(G(), list[i]);
        if conflict {
          return Some(Conflict);
        }
        err := NodeRefreshPerm(list[i], check);
        if err.Some? {
          return;
        }
        i := i + 1;
      }
      assert list[i..] == [];
      NoneOfList(G(), check);
      err := None;
    }

    static lemma FirstOfList(g: Graph, list: seq<NodeId>, check: Answers)
      requires WF(g) && list != [] && Elems(list) <= g.nodes.Keys
      ensures list[0] in g.nodes && Elems(list[1..]) <= g.nodes.Keys
      ensures Pushed(g, list) == Pushed(RefreshNode(g, list[0]), list[1..])
      ensures FirstError(g, list, check) == (if NodeError(g, list[0], check).Some? then NodeError(g, list[0], check)
                                             else FirstError(RefreshNode(g, list[0]), list[1..], check))
    {
      assert list[0] in Elems(list);
      assert Elems(list[1..]) <= Elems(list);
    }

    static lemma NoneOfList(g: Graph, check: Answers)
      requires WF(g)
      ensures FirstError(g, [], check) == None && Pushed(g, []) == g
    {
    }

    /** bdrv_refresh_perms inside an open transaction: the subtree of `bs`, sorted. */
    method RefreshPerms(bs: NodeId, check: Answers) returns (err: Option<Error>, ghost list: seq<NodeId>)
      requires Shape() && Acyclic(G()) && bs in nodes
      modifies this`edges, this`log
      ensures Shape() && KeepsRemovals(old(edges), old(log))
      ensures TopoList(old(G()), list) && Elems(list) == ReachSet(old(G()), bs)
      ensures err == FirstError(old(G()), list, check)
      ensures err == None ==> G() == Pushed(old(G()), list)
    {
      hide WF, Booked, Acyclic;
      EmptyStart(G(), bs);
      var sorted, _ := TopologicalDfs(G(), [], {}, bs);
      list := sorted;
      err := DoRefreshPerms(sorted, check);
    }

    static lemma EmptyStart(g: Graph, bs: NodeId)
      requires WF(g) && Acyclic(g) && bs in g.nodes
      ensures DfsStart(g, [], {}, bs)
    {
    }

    /** A transaction that ends well hands its graph over. */
    method FinishOk()
      requires Shape() && RemovalsOk(edges, log) && Acyclic(G()) && NodesOk(G())
      requires Alive()
      modifies this`edges, this`log, this`scheduled, this`base
      ensures Inv() && edges == old(edges) - Removed(old(log))
      ensures old(LinksCover(G())) ==> LinksCover(G())
    {
      hide Acyclic, NodesOk, LinksCover, Booked;
      ghost var g := G();
      TranCommit();
      DroppedKeeps(g, G());
    }

    /** Dropping detached links changes nothing that any invariant speaks of. */
    static lemma DroppedKeeps(g: Graph, h: Graph)
      requires WF(g) && WF(h) && h.nodes == g.nodes && h.edges.Keys <= g.edges.Keys
      requires forall e :: e in h.edges ==> h.edges[e] == g.edges[e]
      ensures Acyclic(g) ==> Acyclic(h)
      ensures NodesOk(g) ==> NodesOk(h)
      ensures LinksCover(g) ==> LinksCover(h)
    {
      forall x, y | Link(h, x, y) ensures Link(g, x, y) {
        var d :| ChildOf(h.edges, d, x) && Points(h.edges, d, y);
        assert ChildOf(g.edges, d, x) && Points(g.edges, d, y);
      }
      if Acyclic(g) {
        AcyclicFewerLinks(g, h);
      }
      forall n | n in h.nodes && NodesOk(g) ensures NodeOk(h, n) {
        FewerParentsLooser(g, h, n);
      }
      forall d | Driven(h, d) && LinksCover(g) ensures Covers(h, d) {
        assert EdgeOk(g, d);
        FewerParentsLooser(g, h, h.edges[d].parent.node);
        KeptLinkCovers(g, h, d);
      }
    }

    /** A transaction that fails leaves every link as it was. */
    method FinishFailed(ghost g0: Graph)
      requires Shape() && BaseAlive() && WF(g0) && g0.nodes == nodes && g0.edges == base
      requires Acyclic(g0) && NodesOk(g0)
      modifies this`edges, this`parents, this`children, this`log, this`refcnt, this`scheduled
      ensures Inv() && edges == base
      ensures LinksCover(g0) ==> LinksCover(G())
      ensures NoRedirect(old(log)) ==> refcnt == old(refcnt)
    {
      hide Acyclic, NodesOk, LinksCover, Booked;
      TranAbort();
      SameLinksSameInvariants(g0, G());
    }

    // -------------------------------------------------------------------------
    // Public operations.

    /** bdrv_schedule_unref of a reference the caller handed in. */
    method ReleaseRef(n: NodeId)
      requires Inv() && n in nodes && outside[n] >= 1
      modifies this`scheduled, this`outside
      ensures Inv() && outside == old(outside) - multiset{n} && scheduled == old(scheduled) + [n]
    {
      hide Acyclic, NodesOk, WF, Booked;
      ghost var others := Others();
      scheduled := scheduled + [n];
      outside := outside - multiset{n};
      assert Others() == others;
    }

    /** bdrv_attach_child_noperm. */
    method AttachChildNoPerm(parent: NodeId, child: NodeId, role: Role, check: Answers) returns (r: Outcome<EdgeId>)
      requires Shape() && Acyclic(G()) && parent in nodes && child in nodes
      requires nodes[parent].hasDriver && ValidRole(role)
      modifies this`edges, this`parents, this`children, this`log, this`refcnt, this`nextEdge
      ensures Shape() && Acyclic(G())
      ensures r.Refused? ==> G() == old(G()) && log == old(log) && refcnt == old(refcnt)
      ensures AttachBar(old(G()), parent, child, role, check) == if r.Refused? then Some(r.error) else None
      ensures r.Ok? ==> Attached(old(G()), G(), r.value, NewChild(old(G()), parent, child, role), child)
      ensures r.Ok? ==> log == [AttachAct(r.value)] + old(log) && refcnt == Bump(old(refcnt), Some(child), 1)
    {
      hide WF, Booked, Acyclic;
      ghost var g := G();
      if RecurseHasChild(G(), child, parent) {
        return Refused(Cycle);
      }
      if nodes[child].flags.inactive && !nodes[parent].flags.inactive {
        return Refused(Inactive);
      }
      var h := GetCumulativePerm(G(), parent);
      var w := ChildPerms(nodes[parent].flags, nodes[child].forceShare, role, h);
      r := AttachChildCommon(child, Bds(parent), role, w.perm, w.shared, check);
      if r.Ok? {
        AttachedAcyclic(g, G(), r.value, NewChild(g, parent, child, role), child);
      }
    }

    /** What stops a new child link from being made at all. */
    static ghost function AttachBar(g: Graph, parent: NodeId, child: NodeId, role: Role, check: Answers): Option<Error>
      requires WF(g) && parent in g.nodes && child in g.nodes && ValidRole(role)
    {
      if Reaches(g, child, parent) then Some(Cycle)
      else if g.nodes[child].flags.inactive
              && (!g.nodes[parent].flags.inactive
                   || WritesWhileInactive(g.nodes[child], NewChild(g, parent, child, role).perm))
      then Some(Inactive)
      else if !check.joins(Bds(parent), child) then Some(ContextClash)
      else None
    }

    static predicate WritesWhileInactive(child: Node, perm: Mask) {
      child.flags.inactive && !Sub(perm, NONE.(consistentRead := true))
    }

    /** Some topological order of the nodes `s` gives a refresh of `h` this result. */
    static ghost predicate Verdict(h: Graph, s: set<NodeId>, check: Answers, err: Option<Error>) {
      WF(h) && exists list: seq<NodeId> :: TopoList(h, list) && Elems(list) == s && FirstError(h, list, check) == err
    }

    static lemma Judged(h: Graph, list: seq<NodeId>, check: Answers)
      requires WF(h) && TopoList(h, list)
      ensures Verdict(h, Elems(list), check, FirstError(h, list, check))
    {
    }

    /** Whatever the order, it is a refusal exactly if some node fails its tests with the
        final grants. */
    static lemma VerdictMeans(h: Graph, s: set<NodeId>, check: Answers, err: Option<Error>)
      requires Verdict(h, s, check, err)
      ensures exists after :: Refreshed(h, after, s) && WF(after) && after.nodes == h.nodes
                && (err == None <==> forall n :: n in s && n in after.nodes ==> NodeError(after, n, check) == None)
    {
      var list: seq<NodeId> :| TopoList(h, list) && Elems(list) == s && FirstError(h, list, check) == err;
      PushedRefreshed(h, list);
      if err == None {
        PushedChecked(h, list, check);
      } else {
        FailureShows(h, list, check);
      }
      assert Refreshed(h, Pushed(h, list), s);
    }

    /** And so no order makes a refresh succeed that another makes fail. */
    static lemma VerdictsAgree(h: Graph, s: set<NodeId>, check: Answers, err1: Option<Error>, err2: Option<Error>)
      requires Acyclic(h) && Verdict(h, s, check, err1) && Verdict(h, s, check, err2)
      ensures err1 == None <==> err2 == None
    {
      hide Verdict, Refreshed, NodeError, Acyclic;
      VerdictMeans(h, s, check, err1);
      VerdictMeans(h, s, check, err2);
      forall h1, h2 | Refreshed(h, h1, s) && Refreshed(h, h2, s) ensures h1 == h2 {
        RefreshedUnique(h, h1, h2, s);
      }
    }

    /** The link bdrv_attach_child_noperm creates: what the parent needs right now. */
    static function NewChild(g: Graph, parent: NodeId, child: NodeId, role: Role): Edge
      requires WF(g) && parent in g.nodes && child in g.nodes && ValidRole(role)
    {
      var w := ChildPerms(g.nodes[parent].flags, g.nodes[child].forceShare, role, Cumulative(g, parent));
      Edge(Bds(parent), None, role, w.perm, w.shared, false)
    }

    /** `after` is `before` with link `e` attached and the subtree of `top` refreshed. */
    static ghost predicate AttachedAndFresh(before: Graph, after: Graph, e: EdgeId, c: Edge, child: NodeId,
                                            top: NodeId) {
      exists h :: Attached(before, h, e, c, child) && Refreshed(h, after, ReachSet(h, top))
    }

    /** Surgery inside the open transaction turned `g0` into the current graph, and
        only nodes below `tops` gained parents. */
    ghost predicate Operated(g0: Graph, tops: set<NodeId>)
      reads this
    {
      && Shape() && BaseAlive() && RemovalsOk(edges, log) && Acyclic(G()) && tops <= nodes.Keys
      && Alive()
      && WF(g0) && g0.nodes == nodes && g0.edges == base && Acyclic(g0) && NodesOk(g0)
      && (forall n :: n in nodes && n !in Below(G(), tops) ==> NoNewParents(g0, G(), n))
    }

    /** Refresh below `top`, then commit or roll back. */
    method Settle(top: NodeId, check: Answers, ghost g0: Graph)
      returns (err: Option<Error>, ghost list: seq<NodeId>)
      requires Operated(g0, {top})
      modifies this`edges, this`parents, this`children, this`log, this`refcnt, this`scheduled, this`base
      ensures Inv()
      ensures TopoList(old(G()), list) && Elems(list) == ReachSet(old(G()), top)
      ensures err == FirstError(old(G()), list, check)
      ensures err.Some? ==> edges == g0.edges && (LinksCover(g0) ==> LinksCover(G()))
      ensures err == None ==> edges == Pushed(old(G()), list).edges - Removed(old(log))
      ensures err == None ==> parents == old(parents) && children == old(children)
      ensures err == None && LinksCover(Pushed(old(G()), list)) ==> LinksCover(G())
      ensures NoRedirect(old(log)) ==> refcnt == old(refcnt)
      ensures Verdict(old(G()), ReachSet(old(G()), top), check, err)
    {
      hide WF, Booked, Acyclic, NodesOk, LinksCover, TopoList, NoNewParents, Verdict, FirstError, Pushed;
      ghost var h := G();
      OneTop(h, top);
      err, list := RefreshPerms(top, check);
      Judged(h, list, check);
      if err == None {
        SettledOk(g0, h, list, check);
        FinishOk();
      } else {
        FinishFailed(g0);
      }
    }

    static lemma OneTop(h: Graph, top: NodeId)
      ensures Below(h, {top}) == ReachSet(h, top)
    {
    }

    static lemma SettledOk(g0: Graph, h: Graph, list: seq<NodeId>, check: Answers)
      requires WF(g0) && WF(h) && g0.nodes == h.nodes && NodesOk(g0) && Acyclic(h)
      requires forall n :: n in h.nodes && n !in Elems(list) ==> NoNewParents(g0, h, n)
      requires TopoList(h, list) && FirstError(h, list, check) == None
      ensures NodesOk(Pushed(h, list)) && Acyclic(Pushed(h, list))
    {
      assert Outside(g0, h, list);
      PushKeepsNodesOk(g0, h, list, check);
      PushedAcyclic(h, list);
    }

    /** bdrv_attach_child: all or nothing, and the invariants hold either way. */
    method AttachChild(parent: NodeId, child: NodeId, role: Role, check: Answers) returns (r: Outcome<EdgeId>)
      requires Inv() && parent in nodes && child in nodes && nodes[parent].hasDriver && ValidRole(role)
      requires outside[child] >= 1
      modifies this
      ensures Inv() && nodes == old(nodes)
      ensures r.Ok? ==> AttachBar(old(G()), parent, child, role, check) == None
      ensures r.Ok? ==> AttachedAndFresh(old(G()), G(), r.value, NewChild(old(G()), parent, child, role), child, parent)
      ensures r.Refused? ==> edges == old(edges) && AttachRefusal(old(G()), parent, child, role, check, r.error)
      ensures old(LinksCover(G())) ==> LinksCover(G())
      ensures outside == old(outside) - multiset{child}
    {
      hide Inv, WF, Booked, Acyclic, NodesOk, LinksCover, Reaches, AttachedAndFresh, NewChild, AttachBar, AttachRefusal;
      r := AttachUnderRef(parent, child, role, check);
      ReleaseRef(child);
    }

    method AttachUnderRef(parent: NodeId, child: NodeId, role: Role, check: Answers) returns (r: Outcome<EdgeId>)
      requires Inv() && parent in nodes && child in nodes && nodes[parent].hasDriver && ValidRole(role)
      modifies this`edges, this`parents, this`children, this`log, this`refcnt, this`scheduled, this`base, this`nextEdge
      ensures Inv()
      ensures r.Ok? ==> AttachBar(old(G()), parent, child, role, check) == None
      ensures r.Ok? ==> AttachedAndFresh(old(G()), G(), r.value, NewChild(old(G()), parent, child, role), child, parent)
      ensures r.Refused? ==> edges == old(edges) && AttachRefusal(old(G()), parent, child, role, check, r.error)
      ensures old(LinksCover(G())) ==> LinksCover(G())
    {
      hide WF, Booked, Acyclic, NodesOk, LinksCover, TopoList, Reaches, AttachedAndFresh, NewChild, FirstError, Pushed,
           AttachBar, AttachRefusal, Verdict;
      ghost var g := G();
      InvBase();
      r := AttachChildNoPerm(parent, child, role, check);
      if r.Refused? {
        AttachBarred(g, parent, child, role, check);
      } else {
        ghost var h, e := G(), r.value;
        NewChildParent(g, parent, child, role);
        r := SettleAttached(r.value, child, parent, check, g, NewChild(g, parent, child, role));
        if r.Refused? {
          AttachObjected(g, h, e, parent, child, role, check, r.error);
        }
      }
    }

    /** Why bdrv_attach_child refuses: the link may not be made, or the refresh that
        follows it objects. */
    static ghost predicate AttachRefusal(g: Graph, parent: NodeId, child: NodeId, role: Role, check: Answers,
                                         err: Error)
      requires WF(g) && parent in g.nodes && child in g.nodes && ValidRole(role)
    {
      if AttachBar(g, parent, child, role, check).Some? then err == AttachBar(g, parent, child, role, check).value
      else exists h, e :: Attached(g, h, e, NewChild(g, parent, child, role), child)
                          && Verdict(h, ReachSet(h, parent), check, Some(err))
    }

    static lemma AttachBarred(g: Graph, parent: NodeId, child: NodeId, role: Role, check: Answers)
      requires WF(g) && parent in g.nodes && child in g.nodes && ValidRole(role)
      requires AttachBar(g, parent, child, role, check).Some?
      ensures AttachRefusal(g, parent, child, role, check, AttachBar(g, parent, child, role, check).value)
    {
    }

    static lemma AttachObjected(g: Graph, h: Graph, e: EdgeId, parent: NodeId, child: NodeId, role: Role,
                                check: Answers, err: Error)
      requires WF(g) && parent in g.nodes && child in g.nodes && ValidRole(role)
      requires AttachBar(g, parent, child, role, check) == None
      requires Attached(g, h, e, NewChild(g, parent, child, role), child)
      requires Verdict(h, ReachSet(h, parent), check, Some(err))
      ensures AttachRefusal(g, parent, child, role, check, err)
    {
      hide AttachBar, Verdict, NewChild, WF;
    }

    /** So it reports a cycle exactly if there would be one. */
    static lemma CycleExact(g: Graph, parent: NodeId, child: NodeId, role: Role, check: Answers, err: Error)
      requires WF(g) && parent in g.nodes && child in g.nodes && ValidRole(role)
      requires AttachRefusal(g, parent, child, role, check, err)
      ensures err == Cycle <==> Reaches(g, child, parent)
    {
      hide Reaches, Attached, NewChild, Verdict, WF;
      if AttachBar(g, parent, child, role, check) == None {
        var h, e :| Attached(g, h, e, NewChild(g, parent, child, role), child)
                    && Verdict(h, ReachSet(h, parent), check, Some(err));
        RefreshNeverCycles(h, ReachSet(h, parent), check);
      }
    }

    static lemma RefreshNeverCycles(h: Graph, s: set<NodeId>, check: Answers)
      ensures !Verdict(h, s, check, Some(Cycle))
    {
      if Verdict(h, s, check, Some(Cycle)) {
        var list: seq<NodeId> :| TopoList(h, list) && Elems(list) == s && FirstError(h, list, check) == Some(Cycle);
        RefreshErrors(h, list, check);
      }
    }

    /** The second half of both attach operations. */
    method SettleAttached(e: EdgeId, child: NodeId, top: NodeId, check: Answers, ghost g: Graph, ghost c: Edge)
      returns (r: Outcome<EdgeId>)
      requires Shape() && BaseAlive() && Attached(g, G(), e, c, child) && top in nodes
      requires c.parent == Bds(top) || (top == child && !c.parent.Bds?)
      requires Acyclic(G()) && g.edges == base && Acyclic(g) && NodesOk(g) && log == [AttachAct(e)]
      requires Alive()
      modifies this`edges, this`parents, this`children, this`log, this`refcnt, this`scheduled, this`base
      ensures Inv()
      ensures r.Ok? ==> r.value == e && AttachedAndFresh(g, G(), e, c, child, top)
      ensures r.Refused? ==> edges == g.edges
      ensures Verdict(old(G()), ReachSet(old(G()), top), check, if r.Ok? then None else Some(r.error))
      ensures LinksCover(g) ==> LinksCover(G())
    {
      hide WF, Booked, Acyclic, NodesOk, LinksCover, TopoList, AttachedAndFresh, FirstError, Pushed,
           NoRedirect, NoNewParents, Below, NumbersBelow, Verdict;
      ghost var h := G();
      AttachOperated(g, h, e, c, child, top);
      NoRemovals(edges, log);
      var err, list := Settle(top, check, g);
      AttachOutcome(g, h, e, c, child, top, list, check);
      if err == None {
        assert edges == Pushed(h, list).edges - {};
        SameParts(Pushed(h, list), h);
        assert G() == Pushed(h, list);
        r := Ok(e);
      } else {
        r := Refused(err.value);
      }
    }

    static lemma SameParts(p: Graph, h: Graph)
      requires SameShape(h, p)
      ensures p == Graph(h.nodes, p.edges, h.parents, h.children)
    {
    }

    static lemma NewChildParent(g: Graph, parent: NodeId, child: NodeId, role: Role)
      requires WF(g) && parent in g.nodes && child in g.nodes && ValidRole(role)
      ensures NewChild(g, parent, child, role).parent == Bds(parent)
    {
    }

    static lemma AttachOperated(g: Graph, h: Graph, e: EdgeId, c: Edge, child: NodeId, top: NodeId)
      requires Attached(g, h, e, c, child) && top in g.nodes
      requires c.parent == Bds(top) || (top == child && !c.parent.Bds?)
      ensures top in ReachSet(h, top) && child in ReachSet(h, top)
      ensures forall n :: n in h.nodes && n !in Below(h, {top}) ==> NoNewParents(g, h, n)
    {
      OneTop(h, top);
      ReachSetClosed(h, top);
      if c.parent == Bds(top) {
        assert ChildOf(h.edges, e, top) && Points(h.edges, e, child);
        assert Link(h, top, child);
      }
    }

    static lemma AttachOutcome(g: Graph, h: Graph, e: EdgeId, c: Edge, child: NodeId, top: NodeId,
                               list: seq<NodeId>, check: Answers)
      requires Attached(g, h, e, c, child) && NodesOk(g) && top in g.nodes
      requires c.parent == Bds(top) || (top == child && !c.parent.Bds?)
      requires TopoList(h, list) && Elems(list) == ReachSet(h, top)
      ensures FirstError(h, list, check) == None && LinksCover(g) ==> LinksCover(Pushed(h, list))
      ensures AttachedAndFresh(g, Pushed(h, list), e, c, child, top)
    {
      AttachOperated(g, h, e, c, child, top);
      assert top in Elems(list) && child in Elems(list);
      if FirstError(h, list, check) == None {
        AttachRefreshed(g, h, e, c, child, list, check);
      }
      PushedRefreshed(h, list);
    }

    /** bdrv_root_attach_child: a BlockBackend or a job becomes a parent of `child`. */
    method RootAttachChild(child: NodeId, user: Parent, role: Role, perm: Mask, shared: Mask, check: Answers)
      returns (r: Outcome<EdgeId>)
      requires Inv() && child in nodes && !user.Bds? && outside[child] >= 1
      modifies this
      ensures Inv() && nodes == old(nodes)
      ensures r.Ok? ==> AttachedAndFresh(old(G()), G(), r.value, Edge(user, None, role, perm, shared, false), child,
                child)
      ensures r.Refused? ==> edges == old(edges)
      ensures var bar := LinkBar(nodes[child], user, child, perm, check); bar.Some? ==> r == Refused(bar.value)
      ensures r.Refused? && LinkBar(nodes[child], user, child, perm, check) == None ==>
                RootRefusal(old(G()), Edge(user, None, role, perm, shared, false), child, check, r.error)
      ensures old(LinksCover(G())) ==> LinksCover(G())
      ensures outside == old(outside) - multiset{child}
    {
      hide Inv, WF, Booked, Acyclic, NodesOk, LinksCover, AttachedAndFresh, RootRefusal;
      r := RootAttachUnderRef(child, user, role, perm, shared, check);
      ReleaseRef(child);
    }

    method RootAttachUnderRef(child: NodeId, user: Parent, role: Role, perm: Mask, shared: Mask, check: Answers)
      returns (r: Outcome<EdgeId>)
      requires Inv() && child in nodes && !user.Bds?
      modifies this`edges, this`parents, this`children, this`log, this`refcnt, this`scheduled, this`base, this`nextEdge
      ensures Inv()
      ensures r.Ok? ==> AttachedAndFresh(old(G()), G(), r.value, Edge(user, None, role, perm, shared, false), child,
                child)
      ensures r.Refused? ==> edges == old(edges)
      ensures var bar := LinkBar(nodes[child], user, child, perm, check); bar.Some? ==> r == Refused(bar.value)
      ensures r.Refused? && LinkBar(nodes[child], user, child, perm, check) == None ==>
                RootRefusal(old(G()), Edge(user, None, role, perm, shared, false), child, check, r.error)
      ensures old(LinksCover(G())) ==> LinksCover(G())
    {
      hide WF, Booked, Acyclic, NodesOk, LinksCover, AttachedAndFresh, RootRefusal, Verdict;
      ghost var g := G();
      InvBase();
      r := AttachChildCommon(child, user, role, perm, shared, check);
      if r.Ok? {
        ghost var c := Edge(user, None, role, perm, shared, false);
        ghost var h, e := G(), r.value;
        AttachedAcyclic(g, h, e, c, child);
        r := SettleAttached(r.value, child, child, check, g, c);
        if r.Refused? {
          RootObjected(g, h, e, c, child, check, r.error);
        }
      }
    }

    /** What stops bdrv_attach_child_common from making a link. */
    static function LinkBar(node: Node, parent: Parent, child: NodeId, perm: Mask, check: Answers): Option<Error> {
      if WritesWhileInactive(node, perm) then Some(Inactive)
      else if !check.joins(parent, child) then Some(ContextClash)
      else None
    }

    static ghost predicate RootRefusal(g: Graph, c: Edge, child: NodeId, check: Answers, err: Error) {
      exists h, e :: Attached(g, h, e, c, child) && Verdict(h, ReachSet(h, child), check, Some(err))
    }

    static lemma RootObjected(g: Graph, h: Graph, e: EdgeId, c: Edge, child: NodeId, check: Answers, err: Error)
      requires Attached(g, h, e, c, child) && Verdict(h, ReachSet(h, child), check, Some(err))
      ensures RootRefusal(g, c, child, check, err)
    {
    }

    /** bdrv_root_unref_child. The refresh that follows the removal is allowed to
        fail and its result ignored; `err` reports it. */
    method RootUnrefChild(e: EdgeId, check: Answers) returns (err: Option<Error>)
      requires Inv() && e in edges && edges[e].target.Some? && !edges[e].frozen
      modifies this
      ensures Inv() && nodes == old(nodes) && outside == old(outside) && refcnt == old(refcnt)
      ensures exists h :: Without(old(G()), h, e) && e !in h.edges
                          && Verdict(h, ReachSet(h, old(edges[e].target.value)), check, err)
                          && (err == None ==> Refreshed(h, G(), ReachSet(h, old(edges[e].target.value))))
      ensures err.Some? ==> edges == old(edges) - {e}
      ensures old(LinksCover(G())) ==> LinksCover(G())
      ensures old(LinksCover(G())) ==> err in {None, Some(Unaligned), Some(DriverRefused)}
    {
      hide WF, Booked, Acyclic, NodesOk, LinksCover, Refreshed, Verdict;
      ghost var g := G();
      var n := edges[e].target.value;
      LinkEndsExist(g, e);
      TakeAway(e);
      ghost var h := G();
      WithoutKeeps(g, h, e);
      err := RefreshAlone(n, check, g, h);
      ReleaseRef(n);
    }

    /** The link is detached and freed; its reference passes to the caller. */
    method TakeAway(e: EdgeId)
      requires Inv() && e in edges && edges[e].target.Some? && !edges[e].frozen
      modifies this`edges, this`parents, this`children, this`base, this`outside
      ensures Inv() && Without(old(G()), G(), e) && edges == old(edges) - {e}
      ensures outside == old(outside) + multiset{old(edges[e].target.value)}
    {
      hide WF, Acyclic, NodesOk;
      ghost var g := G();
      var n := edges[e].target.value;
      LinkEndsExist(g, e);
      ghost var others := Others();
      RefsUnlink(nodes.Keys, edges, refcnt, others, e, n);
      ReplaceChildNoPerm(e, None);
      ghost var d := G();
      edges := edges - {e};
      assert G() == DropEdge(d, e);
      assert edges == g.edges - {e};
      base := edges;
      outside := outside + multiset{n};
      assert Others() == others + multiset{n};
      WithoutFacts(g, G(), e);
      WithoutKeeps(g, G(), e);
    }

    /** bdrv_refresh_perms with a transaction of its own, after `g` was loosened to `h`. */
    method RefreshAlone(n: NodeId, check: Answers, ghost g: Graph, ghost h: Graph) returns (err: Option<Error>)
      requires Inv() && n in nodes && h == G()
      requires WF(g) && NodesOk(g) && LoosenedFrom(g, h)
      modifies this`edges, this`parents, this`children, this`log, this`refcnt, this`scheduled, this`base
      ensures Inv()
      ensures err == None ==> Refreshed(h, G(), ReachSet(h, n))
      ensures err.Some? ==> edges == h.edges
      ensures LinksCover(g) ==> err in {None, Some(Unaligned), Some(DriverRefused)}
      ensures LinksCover(h) ==> LinksCover(G())
      ensures refcnt == old(refcnt) && Verdict(h, ReachSet(h, n), check, err)
    {
      hide WF, Booked, Acyclic, NodesOk, LinksCover, TopoList, FirstError, Pushed, Refreshed,
           NoNewParents, NumbersBelow, Verdict;
      InvBase();
      NoRemovals(edges, log);
      NothingNew(h);
      ghost var list;
      err, list := Settle(n, check, h);
      RefreshOutcome(g, h, list, check);
      if err == None {
        assert edges == Pushed(h, list).edges - {};
        SameParts(Pushed(h, list), h);
        assert G() == Pushed(h, list);
      }
    }

    static lemma NothingNew(h: Graph)
      ensures forall m :: NoNewParents(h, h, m)
    {
    }

    static lemma RefreshOutcome(g: Graph, h: Graph, list: seq<NodeId>, check: Answers)
      requires WF(g) && WF(h) && NodesOk(g) && LoosenedFrom(g, h) && TopoList(h, list)
      ensures Refreshed(h, Pushed(h, list), Elems(list))
      ensures LinksCover(g) ==> FirstError(h, list, check) in {None, Some(Unaligned), Some(DriverRefused)}
      ensures LinksCover(h) ==> LinksCover(Pushed(h, list))
    {
      PushedRefreshed(h, list);
      PushedCovers(h, list);
      if LinksCover(g) {
        LooseningNeverConflicts(g, h, list, check);
      }
    }

    /** `after` is `before` with a new grant on `e` and its node refreshed. */
    static ghost predicate RegrantedAndFresh(before: Graph, after: Graph, e: EdgeId, w: Grant) {
      exists h :: Regranted(before, h, e, w) && Refreshed(h, after, ReachSet(h, before.edges[e].target.value))
    }

    /** Set the grant of one link, refresh below it, commit or roll back. */
    method RegrantAndSettle(e: EdgeId, w: Grant, check: Answers) returns (err: Option<Error>)
      requires Inv() && e in edges && edges[e].target.Some?
      modifies this`edges, this`parents, this`children, this`log, this`refcnt, this`scheduled, this`base
      ensures Inv()
      ensures err == None ==> RegrantedAndFresh(old(G()), G(), e, w)
      ensures err.Some? ==> edges == old(edges)
      ensures RegrantVerdict(old(G()), e, w, check, err)
      ensures old(LinksCover(G())) ==>
                (LinksCover(G()) <==> err.Some? || (Driven(old(G()), e) ==> Looser(Wanted(old(G()), e), w)))
      ensures old(LinksCover(G())) && Looser(w, GrantOf(old(edges[e]))) ==>
                err in {None, Some(Unaligned), Some(DriverRefused)}
    {
      hide WF, Booked, Acyclic, NodesOk, LinksCover, TopoList, FirstError, Pushed, RegrantedAndFresh,
           NoRedirect, NoNewParents, Below, NumbersBelow, Verdict, RegrantVerdict;
      ghost var g := G();
      var n := edges[e].target.value;
      LinkEndsExist(g, e);
      InvBase();
      NoRemovals(edges, log);
      ChildSetPerm(e, w.perm, w.shared);
      ghost var h := G();
      RegrantOperated(g, h, e, w);
      ghost var list;
      err, list := Settle(n, check, g);
      RegrantOutcome(g, h, e, w, list, check);
      RegrantJudged(g, h, e, w, check, err);
      if err == None {
        assert edges == Pushed(h, list).edges - {};
        SameParts(Pushed(h, list), h);
        assert G() == Pushed(h, list);
      }
    }

    /** The result is that of a refresh with the new grant in place. */
    static ghost predicate RegrantVerdict(g: Graph, e: EdgeId, w: Grant, check: Answers, err: Option<Error>) {
      exists h :: Regranted(g, h, e, w) && Verdict(h, ReachSet(h, g.edges[e].target.value), check, err)
    }

    static lemma RegrantJudged(g: Graph, h: Graph, e: EdgeId, w: Grant, check: Answers, err: Option<Error>)
      requires Regranted(g, h, e, w) && Verdict(h, ReachSet(h, g.edges[e].target.value), check, err)
      ensures RegrantVerdict(g, e, w, check, err)
    {
    }

    static lemma RegrantOperated(g: Graph, h: Graph, e: EdgeId, w: Grant)
      requires WF(g) && e in g.edges && g.edges[e].target.Some? && h == SetPerm(g, e, w.perm, w.shared)
      ensures Regranted(g, h, e, w) && (Acyclic(g) ==> Acyclic(h))
      ensures forall n :: n in h.nodes && n !in Below(h, {g.edges[e].target.value}) ==> NoNewParents(g, h, n)
    {
      var t := g.edges[e].target.value;
      assert EdgeOk(g, e);
      RegrantedShape(g, h, e, w);
      OneTop(h, t);
      ReachSetClosed(h, t);
      forall n | n in h.nodes && n !in Below(h, {t}) ensures NoNewParents(g, h, n) {
        RegrantedOutside(g, h, e, w, n);
      }
    }

    static lemma RegrantOutcome(g: Graph, h: Graph, e: EdgeId, w: Grant, list: seq<NodeId>, check: Answers)
      requires Regranted(g, h, e, w) && Acyclic(g) && NodesOk(g) && TopoList(h, list)
      requires Elems(list) == ReachSet(h, g.edges[e].target.value)
      ensures RegrantedAndFresh(g, Pushed(h, list), e, w)
      ensures LinksCover(g) ==>
                (LinksCover(Pushed(h, list)) <==> (Driven(g, e) ==> Looser(Wanted(g, e), w)))
      ensures LinksCover(g) && Looser(w, GrantOf(g.edges[e])) ==>
                FirstError(h, list, check) in {None, Some(Unaligned), Some(DriverRefused)}
    {
      PushedRefreshed(h, list);
      RegrantedShape(g, h, e, w);
      if LinksCover(g) {
        if Driven(g, e) ==> Looser(Wanted(g, e), w) {
          RegrantedCovers(g, h, e, w, list);
        } else {
          RegrantedLink(g, h, Pushed(h, list), e, w);
        }
        if Looser(w, GrantOf(g.edges[e])) {
          LooseningNeverConflicts(g, h, list, check);
        }
      }
    }

    /** bdrv_child_try_set_perm. A refusal is hidden from a caller that only loosens, who
        then keeps the old grant. `why` is what the refresh said. A node that asks for less
        than it needs on its own child gets it. */
    method ChildTrySetPerm(e: EdgeId, perm: Mask, shared: Mask, check: Answers)
      returns (ret: Option<Error>, why: Option<Error>)
      requires Inv() && e in edges && edges[e].target.Some?
      modifies this
      ensures Inv() && nodes == old(nodes) && outside == old(outside)
      ensures why == None ==> RegrantedAndFresh(old(G()), G(), e, Grant(perm, shared))
      ensures why.Some? ==> edges == old(edges)
      ensures RegrantVerdict(old(G()), e, Grant(perm, shared), check, why)
      ensures ret == if Looser(Grant(perm, shared), GrantOf(old(edges[e]))) then None else why
      ensures old(LinksCover(G())) ==>
                (LinksCover(G()) <==>
                   why.Some? || (Driven(old(G()), e) ==> Looser(Wanted(old(G()), e), Grant(perm, shared))))
      ensures old(LinksCover(G())) && Looser(Grant(perm, shared), GrantOf(old(edges[e]))) ==>
                why in {None, Some(Unaligned), Some(DriverRefused)}
    {
      hide WF, Booked, Acyclic, NodesOk, LinksCover, RegrantedAndFresh, RegrantVerdict;
      why := RegrantAndSettle(e, Grant(perm, shared), check);
      ret := why;
      if why.Some? {
        if !Sub(perm, edges[e].perm) || !Sub(edges[e].shared, shared) {
        } else {
          ret := None;
        }
      }
    }

    /** bdrv_child_refresh_perms: a node takes again what it needs on one child. */
    method ChildRefreshPerms(e: EdgeId, check: Answers) returns (ret: Option<Error>, why: Option<Error>)
      requires Inv() && e in edges && edges[e].target.Some? && edges[e].parent.Bds?
      modifies this
      ensures Inv() && nodes == old(nodes) && outside == old(outside)
      ensures why == None ==> RegrantedAndFresh(old(G()), G(), e, Wanted(old(G()), e))
      ensures why.Some? ==> edges == old(edges)
      ensures RegrantVerdict(old(G()), e, Wanted(old(G()), e), check, why)
      ensures ret == if Looser(Wanted(old(G()), e), GrantOf(old(edges[e]))) then None else why
      ensures old(LinksCover(G())) ==> LinksCover(G())
    {
      hide WF, Booked, Acyclic, NodesOk, LinksCover, RegrantedAndFresh, Cumulative, RegrantVerdict;
      LinkEndsExist(G(), e);
      var p := edges[e].parent.node;
      var h := GetCumulativePerm(G(), p);
      var w := ChildPerms(nodes[p].flags, nodes[edges[e].target.value].forceShare, edges[e].role, h);
      ret, why := ChildTrySetPerm(e, w.perm, w.shared, check);
    }

    ghost predicate RefsGrew(before: map<NodeId, int>)
      reads this
    {
      forall n :: n in nodes ==> n in refcnt && n in before && refcnt[n] >= before[n]
    }

    /** bdrv_replace_node_noperm: every parent link of `from` that may be moved now
        points at `to`; the test is rerun on the changing graph for each of them. */
    method ReplaceNodeNoPerm(from: NodeId, to: NodeId, autoSkip: bool)
      returns (err: Option<Error>, ghost moved: set<EdgeId>)
      requires Shape() && Acyclic(G()) && from in nodes && to in nodes && from != to
      modifies this`edges, this`parents, this`children, this`log, this`refcnt
      ensures Shape() && Acyclic(G()) && (Removed(old(log)) == {} ==> Removed(log) == {})
      ensures RefsGrew(old(refcnt))
      ensures MovedFrom(old(G()), G(), from, to, moved)
      ensures err == None ==> moved == MovableParents(old(G()), from, to)
      ensures err == None <==> MayReplace(old(G()), from, to, autoSkip)
      ensures err.Some? ==> err.value == Frozen || (!autoSkip && err.value == PinnedLink)
    {
      hide WF, Booked, Acyclic, Movable, MovedFrom, NumbersBelow, MayReplace, MovableParents, MovedSoFar,
           ReplaceableSoFar,
           LinkMayReplace;
      ghost var g := G();
      moved := {};
      ParentsPoint(g, from);
      BookKeys(nodes.Keys, edges, refcnt, log, Others(), base);
      var ps := parents[from];
      NothingMoved(g, from, to, ps, autoSkip);
      var i := 0;
      while i < |ps|
        invariant 0 <= i <= |ps|
        invariant Shape() && Acyclic(G()) && (Removed(old(log)) == {} ==> Removed(log) == {}) && RefsGrew(old(refcnt))
        invariant MovedFrom(g, G(), from, to, moved) && moved == MovedSoFar(g, ps, i, to)
        invariant ReplaceableSoFar(g, ps, i, to, autoSkip)
      {
        NotYetMoved(g, G(), from, to, moved, ps, i);
        SoFarStep(g, ps, i, to, autoSkip);
        err := MoveParent(ps[i], from, to, autoSkip, g, moved);
        if err.Some? {
          Unreplaceable(g, from, to, autoSkip, ps, i);
          return;
        }
        moved := MovedSoFar(g, ps, i + 1, to);
        i := i + 1;
      }
      err := None;
      AllMoved(g, from, to, autoSkip, ps);
    }

    /** One round of its loop. */
    method MoveParent(c: EdgeId, from: NodeId, to: NodeId, autoSkip: bool, ghost g: Graph, ghost moved: set<EdgeId>)
      returns (err: Option<Error>)
      requires Shape() && Acyclic(G()) && MovedFrom(g, G(), from, to, moved) && from != to && to in nodes
      requires Points(g.edges, c, from) && c !in moved && c in edges && edges[c] == g.edges[c]
      modifies this`edges, this`parents, this`children, this`log, this`refcnt
      ensures Shape() && Acyclic(G()) && (Removed(old(log)) == {} ==> Removed(log) == {}) && RefsGrew(old(refcnt))
      ensures err.Some? ==> !LinkMayReplace(g, c, to, autoSkip) && MovedFrom(g, G(), from, to, moved)
      ensures err.Some? ==> err.value == Frozen || (!autoSkip && err.value == PinnedLink)
      ensures err == None ==> LinkMayReplace(g, c, to, autoSkip)
                              && MovedFrom(g, G(), from, to, moved + (if Movable(g, c, to) then {c} else {}))
    {
      hide WF, Booked, Acyclic, Movable, MovedFrom, NumbersBelow;
      BookKeys(nodes.Keys, edges, refcnt, log, Others(), base);
      MovableOnMoved(g, G(), from, to, moved, c);
      var ok := ShouldUpdateChild(G(), c, to);
      if !ok {
        assert moved + {} == moved;
        return if autoSkip then None else Some(PinnedLink);
      }
      if edges[c].frozen {
        return Some(Frozen);
      }
      ghost var h := G();
      MovedNodes(g, h, from, to, moved);
      ReplaceChildTran(c, Some(to));
      MoveOneAcyclic(h, G(), c, to);
      MoveOneMore(g, h, G(), from, to, moved, c);
      err := None;
    }

    /** No parent link stands in the way of the replacement. */
    static ghost predicate MayReplace(g: Graph, from: NodeId, to: NodeId, autoSkip: bool) {
      forall e :: e in g.edges && Points(g.edges, e, from) ==> LinkMayReplace(g, e, to, autoSkip)
    }

    static ghost predicate LinkMayReplace(g: Graph, e: EdgeId, to: NodeId, autoSkip: bool)
      requires e in g.edges
    {
      (Movable(g, e, to) || autoSkip) && (Movable(g, e, to) ==> !g.edges[e].frozen)
    }

    static ghost function MovedSoFar(g: Graph, ps: seq<EdgeId>, i: nat, to: NodeId): set<EdgeId> {
      set e | e in g.edges && e in FirstOf(ps, i) && Movable(g, e, to)
    }

    static ghost predicate ReplaceableSoFar(g: Graph, ps: seq<EdgeId>, i: nat, to: NodeId, autoSkip: bool) {
      forall e :: e in g.edges && e in FirstOf(ps, i) ==> LinkMayReplace(g, e, to, autoSkip)
    }

    static lemma NothingMoved(g: Graph, from: NodeId, to: NodeId, ps: seq<EdgeId>, autoSkip: bool)
      requires WF(g) && from in g.nodes && to in g.nodes && from != to
      ensures MovedFrom(g, g, from, to, {})
      ensures MovedSoFar(g, ps, 0, to) == {} && ReplaceableSoFar(g, ps, 0, to, autoSkip)
    {
      assert g.edges == MoveEdges(g.edges, {}, to);
    }

    static lemma ParentsPoint(g: Graph, n: NodeId)
      requires WF(g) && n in g.nodes
      ensures n in g.parents && NoDup(g.parents[n])
      ensures forall e :: e in g.parents[n] <==> Points(g.edges, e, n)
    {
      assert ListsOk(g, n);
    }

    static lemma NotYetMoved(g: Graph, h: Graph, from: NodeId, to: NodeId, moved: set<EdgeId>, ps: seq<EdgeId>, i: nat)
      requires MovedFrom(g, h, from, to, moved) && i < |ps| && NoDup(ps) && moved == MovedSoFar(g, ps, i, to)
      requires Points(g.edges, ps[i], from)
      ensures ps[i] !in moved && ps[i] in h.edges && h.edges[ps[i]] == g.edges[ps[i]]
    {
    }

    static lemma SoFarStep(g: Graph, ps: seq<EdgeId>, i: nat, to: NodeId, autoSkip: bool)
      requires i < |ps| && ps[i] in g.edges
      ensures MovedSoFar(g, ps, i + 1, to) == MovedSoFar(g, ps, i, to) + (if Movable(g, ps[i], to) then {ps[i]} else {})
      ensures ReplaceableSoFar(g, ps, i, to, autoSkip) && LinkMayReplace(g, ps[i], to, autoSkip) ==>
                ReplaceableSoFar(g, ps, i + 1, to, autoSkip)
    {
      assert FirstOf(ps, i + 1) == FirstOf(ps, i) + [ps[i]];
    }

    static lemma Unreplaceable(g: Graph, from: NodeId, to: NodeId, autoSkip: bool, ps: seq<EdgeId>, i: nat)
      requires i < |ps| && Points(g.edges, ps[i], from) && !LinkMayReplace(g, ps[i], to, autoSkip)
      ensures !MayReplace(g, from, to, autoSkip)
    {
    }

    static lemma AllMoved(g: Graph, from: NodeId, to: NodeId, autoSkip: bool, ps: seq<EdgeId>)
      requires forall e :: e in ps <==> Points(g.edges, e, from)
      requires ReplaceableSoFar(g, ps, |ps|, to, autoSkip)
      ensures MovedSoFar(g, ps, |ps|, to) == MovableParents(g, from, to)
      ensures MayReplace(g, from, to, autoSkip)
    {
      assert FirstOf(ps, |ps|) == ps;
    }

    /** bdrv_list_refresh_perms for the two ends of a replacement: one list, sorted
        across both searches. */
    method ListRefreshPerms(from: NodeId, to: NodeId, check: Answers)
      returns (err: Option<Error>, ghost list: seq<NodeId>)
      requires Shape() && Acyclic(G()) && from in nodes && to in nodes
      modifies this`edges, this`log
      ensures Shape() && KeepsRemovals(old(edges), old(log))
      ensures TopoList(old(G()), list) && Elems(list) == Below(old(G()), {from, to})
      ensures err == FirstError(old(G()), list, check)
      ensures err == None ==> G() == Pushed(old(G()), list)
    {
      hide WF, Booked, Acyclic, TopoList;
      EmptyStart(G(), from);
      var one, found := TopologicalDfs(G(), [], {}, from);
      NextStart(G(), one, found, to);
      var both, _ := TopologicalDfs(G(), one, found, to);
      BelowTwo(G(), from, to);
      list := both;
      ListInNodes(G(), both);
      err := DoRefreshPerms(both, check);
    }

    static lemma NextStart(g: Graph, list: seq<NodeId>, found: set<NodeId>, bs: NodeId)
      requires WF(g) && Acyclic(g) && bs in g.nodes && TopoList(g, list) && found == Elems(list)
      ensures DfsStart(g, list, found, bs)
    {
    }

    static lemma ListInNodes(g: Graph, list: seq<NodeId>)
      requires TopoList(g, list)
      ensures Elems(list) <= g.nodes.Keys
    {
    }

    static lemma BelowTwo(g: Graph, a: NodeId, b: NodeId)
      ensures Below(g, {a, b}) == ReachSet(g, a) + ReachSet(g, b)
    {
      assert a in {a, b} && b in {a, b};
      forall n | n in ReachSet(g, a) + ReachSet(g, b) ensures n in Below(g, {a, b}) {
        assert Reaches(g, a, n) || Reaches(g, b, n);
      }
    }

    /** `after` is `before` with `moved` redirected to `to` and everything below the
        two nodes refreshed. */
    static ghost predicate MovedAndFresh(before: Graph, after: Graph, from: NodeId, to: NodeId, moved: set<EdgeId>) {
      exists h :: MovedFrom(before, h, from, to, moved) && Refreshed(h, after, Below(h, {from, to}))
    }

    /** bdrv_replace_node_common. Links cover afterwards exactly when the sharing of
        every moved link fits its new node; a forced-shared `from` replaced by a `to`
        that is not can break it. */
    method ReplaceNode(from: NodeId, to: NodeId, autoSkip: bool, check: Answers) returns (err: Option<Error>)
      requires Inv() && from in nodes && to in nodes && from != to
      modifies this
      ensures Inv() && nodes == old(nodes) && outside == old(outside)
      ensures err == None ==> MayReplace(old(G()), from, to, autoSkip)
      ensures err == None ==> MovedAndFresh(old(G()), G(), from, to, MovableParents(old(G()), from, to))
      ensures err.Some? ==> edges == old(edges)
      ensures !MayReplace(old(G()), from, to, autoSkip) ==>
                err == Some(Frozen) || (!autoSkip && err == Some(PinnedLink))
      ensures err.Some? && MayReplace(old(G()), from, to, autoSkip) ==>
                MoveRefusal(old(G()), from, to, MovableParents(old(G()), from, to), check, err.value)
      ensures err.Some? && old(LinksCover(G())) ==> LinksCover(G())
      ensures err == None && old(LinksCover(G())) ==>
                (LinksCover(G()) <==> AllSharingFits(old(G()), MovableParents(old(G()), from, to), to))
    {
      hide WF, Booked, Acyclic, NodesOk, LinksCover, MovedFrom, MovedAndFresh, MayReplace, MovableParents,
           AllSharingFits,
           MoveRefusal;
      ghost var g := G();
      InvBase();
      ghost var moved;
      err, moved := ReplaceNodeNoPerm(from, to, autoSkip);
      if err.Some? {
        MovedNodes(g, G(), from, to, moved);
        FinishFailed(g);
      } else {
        err := SettleMoved(from, to, check, g, moved);
      }
    }

    static lemma MovedNodes(g: Graph, h: Graph, from: NodeId, to: NodeId, moved: set<EdgeId>)
      requires MovedFrom(g, h, from, to, moved)
      ensures WF(g) && g.nodes == h.nodes
    {
    }

    method SettleMoved(from: NodeId, to: NodeId, check: Answers, ghost g: Graph, ghost moved: set<EdgeId>)
      returns (err: Option<Error>)
      requires Shape() && BaseAlive() && Removed(log) == {} && Acyclic(G()) && MovedFrom(g, G(), from, to, moved)
      requires g.edges == base && Acyclic(g) && WF(g) && NodesOk(g) && from in nodes && to in nodes
      requires g.nodes == nodes && Alive()
      modifies this`edges, this`parents, this`children, this`log, this`refcnt, this`scheduled, this`base
      ensures Inv()
      ensures err == None ==> MovedAndFresh(g, G(), from, to, moved)
      ensures err.Some? ==> edges == g.edges && (LinksCover(g) ==> LinksCover(G()))
      ensures err.Some? ==> MoveRefusal(g, from, to, moved, check, err.value)
      ensures err == None && LinksCover(g) ==> (LinksCover(G()) <==> AllSharingFits(g, moved, to))
    {
      hide WF, Booked, Acyclic, NodesOk, LinksCover, MovedFrom, MovedAndFresh, TopoList, FirstError, Pushed,
           AllSharingFits,
           NoNewParents, MoveRefusal;
      ghost var h := G();
      ghost var list;
      err, list := ListRefreshPerms(from, to, check);
      NoRemovals(edges, log);
      if err == None {
        MoveOutcome(g, h, from, to, moved, list, check);
        ghost var r := G();
        FinishOk();
        assert edges == r.edges - {};
        assert G() == r;
      } else {
        MoveObjected(g, h, from, to, moved, list, check);
        FinishFailed(g);
      }
    }

    /** Links may be moved, but the refresh that follows objects. */
    static ghost predicate MoveRefusal(g: Graph, from: NodeId, to: NodeId, moved: set<EdgeId>, check: Answers,
                                       err: Error) {
      exists h :: MovedFrom(g, h, from, to, moved) && Verdict(h, Below(h, {from, to}), check, Some(err))
    }

    static lemma MoveObjected(g: Graph, h: Graph, from: NodeId, to: NodeId, moved: set<EdgeId>, list: seq<NodeId>,
                              check: Answers)
      requires MovedFrom(g, h, from, to, moved) && TopoList(h, list) && Elems(list) == Below(h, {from, to})
      requires FirstError(h, list, check).Some?
      ensures MoveRefusal(g, from, to, moved, check, FirstError(h, list, check).value)
    {
      Judged(h, list, check);
    }

    static lemma MoveOutcome(g: Graph, h: Graph, from: NodeId, to: NodeId, moved: set<EdgeId>,
                             list: seq<NodeId>, check: Answers)
      requires MovedFrom(g, h, from, to, moved) && Acyclic(g) && Acyclic(h) && NodesOk(g)
      requires TopoList(h, list) && Elems(list) == Below(h, {from, to}) && FirstError(h, list, check) == None
      ensures NodesOk(Pushed(h, list)) && Acyclic(Pushed(h, list))
      ensures MovedAndFresh(g, Pushed(h, list), from, to, moved)
      ensures LinksCover(g) ==> (LinksCover(Pushed(h, list)) <==> AllSharingFits(g, moved, to))
    {
      hide WF, NodesOk, LinksCover, AllSharingFits, TopoList, FirstError, Pushed, Acyclic;
      MovedIsMoveOnly(g, h, from, to, moved, list);
      MoveRefreshed(g, h, from, to, moved, list, check);
      ListInNodes(h, list);
      PushedAcyclic(h, list);
      PushedRefreshed(h, list);
    }

    /** bdrv_backing_role. */
    static function BackingRole(node: Node): Role {
      if node.isFilter then Role(false, false, true, false, true) else Role(false, false, false, true, false)
    }

    /** `after` is `before` with `bsNew` linked to `top`, the parents of `top` that may
        be moved redirected to `bsNew`, and everything below `bsNew` refreshed. */
    static ghost predicate AppendedAndFresh(before: Graph, after: Graph, e: EdgeId, c: Edge,
                                            bsNew: NodeId, top: NodeId, moved: set<EdgeId>) {
      exists h1, h :: Appended(before, h1, h, e, c, bsNew, top, moved)
                      && moved == MovableParents(h1, top, bsNew) && Refreshed(h, after, ReachSet(h, bsNew))
    }

    /** bdrv_append. */
    method Append(bsNew: NodeId, top: NodeId, check: Answers) returns (r: Outcome<EdgeId>, ghost moved: set<EdgeId>)
      requires Inv() && bsNew in nodes && top in nodes && bsNew != top && nodes[bsNew].hasDriver
      modifies this
      ensures Inv() && nodes == old(nodes) && outside == old(outside)
      ensures r.Ok? ==> AppendedAndFresh(old(G()), G(), r.value,
                          NewChild(old(G()), bsNew, top, BackingRole(nodes[bsNew])), bsNew, top, moved)
      ensures r.Refused? ==> edges == old(edges)
      ensures r.Ok? ==> AttachBar(old(G()), bsNew, top, BackingRole(nodes[bsNew]), check) == None
      ensures r.Refused? ==> AppendRefusal(old(G()), bsNew, top, check, r.error)
      ensures r.Refused? && old(LinksCover(G())) ==> LinksCover(G())
      ensures r.Ok? && old(LinksCover(G())) ==> (LinksCover(G()) <==> AllSharingFits(old(G()), moved, bsNew))
    {
      hide WF, Booked, Acyclic, NodesOk, LinksCover, MovedFrom, AppendedAndFresh, MayReplace, MovableParents,
           AllSharingFits, NewChild, Reaches, AttachBar, AppendRefusal, AppendObjection;
      ghost var g := G();
      InvBase();
      moved := {};
      r := AttachChildNoPerm(bsNew, top, BackingRole(nodes[bsNew]), check);
      if r.Refused? {
        AppendRefused(g, bsNew, top, check, r.error);
      } else {
        NewChildParent(g, bsNew, top, BackingRole(nodes[bsNew]));
        r, moved := MoveAppended(r.value, bsNew, top, check, g, NewChild(g, bsNew, top, BackingRole(nodes[bsNew])));
        if r.Refused? {
          AppendRefused(g, bsNew, top, check, r.error);
        }
      }
    }

    /** Why bdrv_append refuses: the new link may not be made, a parent link of `top` is
        frozen, or the refresh objects. */
    static ghost predicate AppendRefusal(g: Graph, bsNew: NodeId, top: NodeId, check: Answers, err: Error)
      requires WF(g) && bsNew in g.nodes && top in g.nodes
    {
      var role := BackingRole(g.nodes[bsNew]);
      if AttachBar(g, bsNew, top, role, check).Some? then err == AttachBar(g, bsNew, top, role, check).value
      else AppendObjection(g, NewChild(g, bsNew, top, role), bsNew, top, check, err)
    }

    static ghost predicate AppendObjection(g: Graph, c: Edge, bsNew: NodeId, top: NodeId, check: Answers, err: Error) {
      exists h1, e :: Attached(g, h1, e, c, top)
        && if MayReplace(h1, top, bsNew, true) then AppendVerdict(g, h1, e, c, bsNew, top, check, err)
             else err == Frozen
    }

    static ghost predicate AppendVerdict(g: Graph, h1: Graph, e: EdgeId, c: Edge, bsNew: NodeId, top: NodeId,
                                         check: Answers, err: Error) {
      exists h :: Appended(g, h1, h, e, c, bsNew, top, MovableParents(h1, top, bsNew))
                  && Verdict(h, ReachSet(h, bsNew), check, Some(err))
    }

    static lemma AppendRefused(g: Graph, bsNew: NodeId, top: NodeId, check: Answers, err: Error)
      requires WF(g) && bsNew in g.nodes && top in g.nodes
      requires var role := BackingRole(g.nodes[bsNew]);
               AttachBar(g, bsNew, top, role, check) == Some(err)
               || (AttachBar(g, bsNew, top, role, check) == None
                   && AppendObjection(g, NewChild(g, bsNew, top, role), bsNew, top, check, err))
      ensures AppendRefusal(g, bsNew, top, check, err)
    {
    }

    static lemma AppendObjected(g: Graph, h1: Graph, e: EdgeId, c: Edge, bsNew: NodeId, top: NodeId, check: Answers,
                                err: Error)
      requires Attached(g, h1, e, c, top)
      requires if MayReplace(h1, top, bsNew, true) then AppendVerdict(g, h1, e, c, bsNew, top, check, err)
                 else err == Frozen
      ensures AppendObjection(g, c, bsNew, top, check, err)
    {
      hide Attached, MayReplace, AppendVerdict;
    }

    static lemma AppendJudged(g: Graph, h1: Graph, h: Graph, e: EdgeId, c: Edge, bsNew: NodeId, top: NodeId,
                              moved: set<EdgeId>, list: seq<NodeId>, check: Answers)
      requires Appended(g, h1, h, e, c, bsNew, top, moved) && moved == MovableParents(h1, top, bsNew) && WF(h)
      requires TopoList(h, list) && Elems(list) == ReachSet(h, bsNew) && FirstError(h, list, check).Some?
      ensures AppendVerdict(g, h1, e, c, bsNew, top, check, FirstError(h, list, check).value)
    {
      hide Appended, MovableParents;
      Judged(h, list, check);
    }

    static ghost predicate KeepsCover(g: Graph, h: Graph) {
      WF(g) && WF(h) && (LinksCover(g) ==> LinksCover(h))
    }

    static ghost predicate CoversIffFits(g: Graph, h: Graph, moved: set<EdgeId>, to: NodeId) {
      WF(g) && WF(h) && to in g.nodes && (LinksCover(g) ==> (LinksCover(h) <==> AllSharingFits(g, moved, to)))
    }

    method MoveAppended(e: EdgeId, bsNew: NodeId, top: NodeId, check: Answers, ghost g: Graph, ghost c: Edge)
      returns (r: Outcome<EdgeId>, ghost moved: set<EdgeId>)
      requires Shape() && BaseAlive() && log == [AttachAct(e)] && Acyclic(G()) && Attached(g, G(), e, c, top)
      requires c.parent == Bds(bsNew) && top in nodes && bsNew in nodes && bsNew != top
      requires g.edges == base && Acyclic(g) && WF(g) && NodesOk(g) && g.nodes == nodes
      requires Alive()
      modifies this`edges, this`parents, this`children, this`log, this`refcnt, this`scheduled, this`base
      ensures Inv()
      ensures r.Ok? ==> r.value == e && AppendedAndFresh(g, G(), e, c, bsNew, top, moved)
      ensures r.Refused? ==> edges == g.edges && KeepsCover(g, G()) && AppendObjection(g, c, bsNew, top, check, r.error)
      ensures r.Ok? ==> CoversIffFits(g, G(), moved, bsNew)
    {
      hide WF, Booked, Acyclic, NodesOk, LinksCover, MovedFrom, AppendedAndFresh, MayReplace, MovableParents,
           AllSharingFits, Attached,
           AppendObjection, AppendVerdict;
      ghost var h1 := G();
      assert Removed(log) == {};
      var err;
      err, moved := ReplaceNodeNoPerm(top, bsNew, true);
      if err.Some? {
        FinishFailed(g);
        r := Refused(err.value);
      } else {
        r := SettleAppended(e, bsNew, top, check, g, h1, c, moved);
      }
      if r.Refused? {
        AppendObjected(g, h1, e, c, bsNew, top, check, r.error);
      }
    }

    method SettleAppended(e: EdgeId, bsNew: NodeId, top: NodeId, check: Answers,
                          ghost g: Graph, ghost h1: Graph, ghost c: Edge, ghost moved: set<EdgeId>)
      returns (r: Outcome<EdgeId>)
      requires Shape() && BaseAlive() && Removed(log) == {} && Acyclic(G())
      requires Appended(g, h1, G(), e, c, bsNew, top, moved)
      requires moved == MovableParents(h1, top, bsNew)
      requires g.edges == base && Acyclic(g) && WF(g) && NodesOk(g) && bsNew in nodes
      requires g.nodes == nodes && Alive()
      modifies this`edges, this`parents, this`children, this`log, this`refcnt, this`scheduled, this`base
      ensures Inv() && AppendDone(g, h1, G(), r, e, c, bsNew, top, moved, check)
    {
      hide WF, Booked, Acyclic, NodesOk, LinksCover, Appended, AppendedAndFresh, TopoList, FirstError, Pushed,
           AllSharingFits, MovableParents, AppendVerdict;
      ghost var h := G();
      var err, list := RefreshPerms(bsNew, check);
      NoRemovals(edges, log);
      if err == None {
        AppendOutcome(g, h1, h, e, c, bsNew, top, moved, list, check);
        ghost var p := G();
        FinishOk();
        assert edges == p.edges - {};
        assert G() == p;
        r := Ok(e);
      } else {
        AppendJudged(g, h1, h, e, c, bsNew, top, moved, list, check);
        FinishFailed(g);
        r := Refused(err.value);
      }
    }

    static ghost predicate AppendDone(g: Graph, h1: Graph, after: Graph, r: Outcome<EdgeId>, e: EdgeId, c: Edge,
                                      bsNew: NodeId, top: NodeId, moved: set<EdgeId>, check: Answers) {
      match r
      case Ok(v) =>
        v == e && AppendedAndFresh(g, after, e, c, bsNew, top, moved) && CoversIffFits(g, after, moved, bsNew)
      case Refused(err) =>
        after.edges == g.edges && KeepsCover(g, after) && AppendVerdict(g, h1, e, c, bsNew, top, check, err)
    }

    static lemma AppendOutcome(g: Graph, h1: Graph, h: Graph, e: EdgeId, c: Edge, bsNew: NodeId, top: NodeId,
                               moved: set<EdgeId>, list: seq<NodeId>, check: Answers)
      requires Appended(g, h1, h, e, c, bsNew, top, moved) && Acyclic(h) && NodesOk(g)
      requires moved == MovableParents(h1, top, bsNew)
      requires TopoList(h, list) && Elems(list) == ReachSet(h, bsNew) && FirstError(h, list, check) == None
      ensures NodesOk(Pushed(h, list)) && Acyclic(Pushed(h, list))
      ensures AppendedAndFresh(g, Pushed(h, list), e, c, bsNew, top, moved)
      ensures LinksCover(g) ==> (LinksCover(Pushed(h, list)) <==> AllSharingFits(g, moved, bsNew))
    {
      hide NodesOk, LinksCover, AllSharingFits, TopoList, FirstError, Pushed, Acyclic, MovableParents;
      AppendedMoveOnly(g, h1, h, e, c, bsNew, top, moved, list);
      MoveRefreshed(g, h, top, bsNew, moved, list, check);
      ListInNodes(h, list);
      PushedAcyclic(h, list);
      PushedRefreshed(h, list);
    }

    /** Which links bdrv_child_cb_attach files under bs->backing. */
    static predicate IsBacking(node: Node, role: Role) {
      if node.isFilter || role.filtered then role.primary && node.filteredChildIsBacking else role.cow
    }

    /** bs->backing: the first such link in the children list. */
    static function BackingOf(g: Graph, bs: NodeId, es: seq<EdgeId>): (r: Option<EdgeId>)
      requires WF(g) && bs in g.nodes && forall e :: e in es ==> ChildOf(g.edges, e, bs)
      ensures r.Some? ==> ChildOf(g.edges, r.value, bs) && IsBacking(g.nodes[bs], g.edges[r.value].role)
      ensures r == None ==> forall e :: e in es && e in g.edges ==> !IsBacking(g.nodes[bs], g.edges[e].role)
    {
      if es == [] then None
      else
        assert ChildOf(g.edges, es[0], bs);
        if IsBacking(g.nodes[bs], g.edges[es[0]].role) then Some(es[0])
        else BackingOf(g, bs, es[1..])
    }

    /** The new link, if there is one, is the one bdrv_attach_child_noperm makes. */
    static ghost predicate NewBacking(h0: Graph, bs: NodeId, child: Option<NodeId>, c: Edge) {
      && c.parent == Bds(bs)
      && (child.Some? ==> WF(h0) && bs in h0.nodes && child.value in h0.nodes
                          && c == NewChild(h0, bs, child.value, BackingRole(h0.nodes[bs])))
    }

    /** `after` is `before` with the backing link exchanged and the subtree refreshed. */
    static ghost predicate ExchangedAndFresh(before: Graph, after: Graph, bs: NodeId, gone: Option<EdgeId>,
                                             e: EdgeId, child: Option<NodeId>) {
      exists h0, h, c, r :: Exchanged(before, h0, h, bs, gone, e, c, child) && NewBacking(h0, bs, child, c)
                            && Refreshed(h, r, ReachSet(h, bs)) && after.edges == r.edges - Gone(gone)
    }

    static function Gone(gone: Option<EdgeId>): set<EdgeId> {
      if gone.Some? then {gone.value} else {}
    }

    /** bdrv_set_backing_hd: take the old backing link away, put the new one in place. */
    method SetBacking(bs: NodeId, child: Option<NodeId>, check: Answers)
      returns (err: Option<Error>, ghost gone: Option<EdgeId>, ghost e: EdgeId)
      requires Inv() && bs in nodes && (child.Some? ==> child.value in nodes)
      modifies this
      ensures Inv() && nodes == old(nodes) && outside == old(outside)
      ensures gone.Some? ==> ChildOf(old(edges), gone.value, bs) && IsBacking(nodes[bs], old(edges)[gone.value].role)
      ensures gone == None ==> forall d :: ChildOf(old(edges), d, bs) ==> !IsBacking(nodes[bs], old(edges)[d].role)
      ensures err == None ==> ExchangedAndFresh(old(G()), G(), bs, gone, e, child)
      ensures err.Some? ==> edges == old(edges)
      ensures BackingBar(old(G()), bs, gone).Some? ==> err == BackingBar(old(G()), bs, gone)
      ensures BackingBar(old(G()), bs, gone) == None && err.Some? ==>
                ExchangeRefusal(old(G()), bs, gone, child, check, err.value)
      ensures old(LinksCover(G())) ==> LinksCover(G())
    {
      hide WF, Booked, Acyclic, NodesOk, LinksCover, ExchangedAndFresh, Removed, RemovalsOk, ExchangeRefusal;
      ghost var g := G();
      InvBase();
      ChildrenPoint(g, bs);
      var link := BackingOf(G(), bs, children[bs]);
      gone, e := link, nextEdge;
      if !nodes[bs].hasDriver {
        return Some(NoDriver), gone, e;
      }
      if link.Some? && edges[link.value].frozen {
        return Some(Frozen), gone, e;
      }
      if !nodes[bs].isFilter && !nodes[bs].supportsBacking {
        return Some(NoBackingSupport), gone, e;
      }
      err, e := Exchange(bs, link, child, check, g);
    }

    /** What stops the backing link of `bs` from being exchanged at all. */
    static function BackingBar(g: Graph, bs: NodeId, link: Option<EdgeId>): Option<Error>
      requires bs in g.nodes && (link.Some? ==> link.value in g.edges)
    {
      if !g.nodes[bs].hasDriver then Some(NoDriver)
      else if link.Some? && g.edges[link.value].frozen then Some(Frozen)
      else if !g.nodes[bs].isFilter && !g.nodes[bs].supportsBacking then Some(NoBackingSupport)
      else None
    }

    /** The old link is let go of; then the new one may not be made, or the refresh
        objects. */
    static ghost predicate ExchangeRefusal(g: Graph, bs: NodeId, gone: Option<EdgeId>, child: Option<NodeId>,
                                           check: Answers, err: Error) {
      || ExchangeBarred(g, bs, gone, child, check, err)
      || exists h0, h, e, c :: Exchanged(g, h0, h, bs, gone, e, c, child) && NewBacking(h0, bs, child, c)
                               && Verdict(h, ReachSet(h, bs), check, Some(err))
    }

    static ghost predicate ExchangeBarred(g: Graph, bs: NodeId, gone: Option<EdgeId>, child: Option<NodeId>,
                                          check: Answers, err: Error) {
      exists h0 :: WF(h0) && (if gone.Some? then Without(g, h0, gone.value) else h0 == g) && child.Some?
                   && bs in h0.nodes && child.value in h0.nodes
                   && AttachBar(h0, bs, child.value, BackingRole(h0.nodes[bs]), check) == Some(err)
    }

    static lemma BarredByChild(g: Graph, h0: Graph, bs: NodeId, gone: Option<EdgeId>, child: NodeId, check: Answers,
                               err: Error)
      requires WF(h0) && (if gone.Some? then Without(g, h0, gone.value) else h0 == g)
      requires bs in h0.nodes && child in h0.nodes
      requires AttachBar(h0, bs, child, BackingRole(h0.nodes[bs]), check) == Some(err)
      ensures ExchangeRefusal(g, bs, gone, Some(child), check, err)
    {
      hide AttachBar, Without, Exchanged, WF;
      assert ExchangeBarred(g, bs, gone, Some(child), check, err);
    }

    static lemma ExchangeObjected(g: Graph, h0: Graph, h: Graph, bs: NodeId, gone: Option<EdgeId>, e: EdgeId, c: Edge,
                                  child: Option<NodeId>, check: Answers, err: Error)
      requires Exchanged(g, h0, h, bs, gone, e, c, child) && NewBacking(h0, bs, child, c)
      requires Verdict(h, ReachSet(h, bs), check, Some(err))
      ensures ExchangeRefusal(g, bs, gone, child, check, err)
    {
      hide Exchanged, NewBacking, Verdict, ExchangeBarred;
    }

    static lemma ChildrenPoint(g: Graph, n: NodeId)
      requires WF(g) && n in g.nodes
      ensures n in g.children && forall e :: e in g.children[n] <==> ChildOf(g.edges, e, n)
    {
      assert ListsOk(g, n);
    }

    method Exchange(bs: NodeId, link: Option<EdgeId>, child: Option<NodeId>, check: Answers, ghost g: Graph)
      returns (err: Option<Error>, ghost e: EdgeId)
      requires Inv() && BaseAlive() && g == G() && base == edges && bs in nodes && nodes[bs].hasDriver
      requires child.Some? ==> child.value in nodes
      requires link.Some? ==> ChildOf(edges, link.value, bs) && !edges[link.value].frozen
      modifies this`edges, this`parents, this`children, this`log, this`refcnt, this`scheduled, this`base, this`nextEdge
      ensures Inv()
      ensures err == None ==> ExchangedAndFresh(g, G(), bs, link, e, child)
      ensures err.Some? ==> edges == g.edges && ExchangeRefusal(g, bs, link, child, check, err.value)
      ensures LinksCover(g) ==> LinksCover(G())
    {
      hide WF, Booked, Acyclic, NodesOk, LinksCover, ExchangedAndFresh, NewChild, NewBacking, RemovalsOk, Removed,
           NumbersBelow,
           AttachBar, ExchangeRefusal;
      e := nextEdge;
      LetGo(link, g);
      ghost var h0 := G();
      ghost var c := Edge(Bds(bs), None, BackingRole(nodes[bs]), NONE, NONE, false);
      if child.Some? {
        ghost var log0 := log;
        var r := AttachChildNoPerm(bs, child.value, BackingRole(nodes[bs]), check);
        if r.Refused? {
          BarredByChild(g, h0, bs, link, child.value, check, r.error);
          FinishFailed(g);
          return Some(r.error), e;
        }
        e := r.value;
        c := NewChild(h0, bs, child.value, BackingRole(nodes[bs]));
        NewChildParent(h0, bs, child.value, BackingRole(nodes[bs]));
        StillRemovable(edges, log0, e, link, h0.edges);
      }
      MakesNewBacking(h0, bs, child, c);
      err := SettleExchanged(bs, link, child, check, g, h0, e, c);
    }

    static lemma MakesNewBacking(h0: Graph, bs: NodeId, child: Option<NodeId>, c: Edge)
      requires WF(h0) && bs in h0.nodes && c.parent == Bds(bs) && (child.Some? ==> child.value in h0.nodes)
      requires child.Some? ==> c == NewChild(h0, bs, child.value, BackingRole(h0.nodes[bs]))
      ensures NewBacking(h0, bs, child, c)
    {
    }

    /** The old link, if there is one, is removed inside the transaction. */
    method LetGo(link: Option<EdgeId>, ghost g: Graph)
      requires Inv() && g == G()
      requires link.Some? ==> link.value in edges && edges[link.value].target.Some? && !edges[link.value].frozen
      modifies this`edges, this`parents, this`children, this`log, this`refcnt
      ensures Shape() && refcnt == old(refcnt) && Acyclic(G()) && NodesOk(G())
      ensures if link.Some?
              then Without(g, G(), link.value)
                   && log == [RemoveAct(link.value), ReplaceAct(link.value, g.edges[link.value].target)]
              else G() == g && log == []
      ensures Removed(log) == Gone(link) && RemovalsOk(edges, log)
    {
      hide WF, Booked, Acyclic, NodesOk;
      if link.Some? {
        var d := link.value;
        RemoveChild(d);
        assert log == [RemoveAct(d), ReplaceAct(d, g.edges[d].target)];
        RemovalLog(edges, d, g.edges[d].target);
        assert edges - {d} == g.edges - {d};
        WithoutFacts(g, G(), d);
        WithoutKeeps(g, G(), d);
      }
    }

    static lemma RemovalLog(edges: map<EdgeId, Edge>, d: EdgeId, t: Option<NodeId>)
      requires d in edges && edges[d].target == None
      ensures Removed([RemoveAct(d), ReplaceAct(d, t)]) == {d}
      ensures RemovalsOk(edges, [RemoveAct(d), ReplaceAct(d, t)])
    {
      var log := [RemoveAct(d), ReplaceAct(d, t)];
      assert log[1..] == [ReplaceAct(d, t)] && log[1..][1..] == [];
      assert Removed(log[1..]) == {};
    }

    static lemma StillRemovable(edges: map<EdgeId, Edge>, log0: seq<Action>, e: EdgeId, link: Option<EdgeId>,
                                edges0: map<EdgeId, Edge>)
      requires RemovalsOk(edges0, log0) && e !in edges0 && Removed(log0) == Gone(link)
      requires forall d :: d in edges0 ==> d in edges && edges[d] == edges0[d]
      ensures RemovalsOk(edges, [AttachAct(e)] + log0) && Removed([AttachAct(e)] + log0) == Gone(link)
    {
      assert ([AttachAct(e)] + log0)[1..] == log0;
      RemovedDetached(edges0, log0);
      RemovalsKept(edges0, edges, log0);
    }

    method SettleExchanged(bs: NodeId, link: Option<EdgeId>, child: Option<NodeId>, check: Answers,
                           ghost g: Graph, ghost h0: Graph, ghost e: EdgeId, ghost c: Edge)
      returns (err: Option<Error>)
      requires Shape() && BaseAlive() && RemovalsOk(edges, log) && Acyclic(G()) && bs in nodes
      requires Removed(log) == Gone(link)
      requires Exchanged(g, h0, G(), bs, link, e, c, child) && NewBacking(h0, bs, child, c)
      requires WF(g) && g.edges == base && Acyclic(g) && NodesOk(g) && g.nodes == nodes
      requires Alive()
      modifies this`edges, this`parents, this`children, this`log, this`refcnt, this`scheduled, this`base
      ensures Inv() && KeepsCover(g, G()) && ExchangeDone(g, G(), err, bs, link, e, child, check)
    {
      hide WF, Booked, Acyclic, NodesOk, LinksCover, TopoList, FirstError, Pushed, NewBacking, NoNewParents,
           KeptLink, Exchanged, ExchangedAndFresh, RemovalsOk, Removed, ExchangeRefusal, Verdict;
      ghost var h := G();
      ExchangedFacts(g, h0, h, bs, link, e, c, child);
      OneTop(h, bs);
      ghost var list;
      err, list := Settle(bs, check, g);
      ExchangeOutcome(g, h0, h, bs, link, e, c, child, list);
      if err.Some? {
        ExchangeObjected(g, h0, h, bs, link, e, c, child, check, err.value);
      }
    }

    static ghost predicate ExchangeDone(g: Graph, after: Graph, err: Option<Error>, bs: NodeId, link: Option<EdgeId>,
                                        e: EdgeId, child: Option<NodeId>, check: Answers) {
      match err
      case None => ExchangedAndFresh(g, after, bs, link, e, child)
      case Some(why) => after.edges == g.edges && ExchangeRefusal(g, bs, link, child, check, why)
    }

    static lemma ExchangeOutcome(g: Graph, h0: Graph, h: Graph, bs: NodeId, link: Option<EdgeId>, e: EdgeId, c: Edge,
                                 child: Option<NodeId>, list: seq<NodeId>)
      requires Exchanged(g, h0, h, bs, link, e, c, child) && NewBacking(h0, bs, child, c) && bs in g.nodes
      requires TopoList(h, list) && Elems(list) == ReachSet(h, bs)
      ensures forall after: Graph :: after.edges == Pushed(h, list).edges - Gone(link) ==>
                ExchangedAndFresh(g, after, bs, link, e, child)
      ensures LinksCover(g) ==> LinksCover(Pushed(h, list))
    {
      PushedRefreshed(h, list);
      if LinksCover(g) {
        ExchangedCovers(g, h0, h, bs, link, e, c, child, list);
      }
    }

    // -------------------------------------------------------------------------
    // References.

    /** bdrv_schedule_unref_bh starts: the oldest scheduled unref is taken up. */
    method TakeScheduled() returns (n: NodeId)
      requires Inv() && scheduled != []
      modifies this`scheduled, this`outside
      ensures Inv() && n == old(scheduled[0]) && scheduled == old(scheduled)[1..]
      ensures n in nodes && outside == old(outside) + multiset{n}
    {
      hide Acyclic, NodesOk, WF, Booked;
      ghost var others := Others();
      n := scheduled[0];
      assert scheduled == [n] + scheduled[1..];
      scheduled := scheduled[1..];
      outside := outside + multiset{n};
      assert Others() == others;
    }

    /** bdrv_unref of a reference that is not the last. */
    method DropRef(n: NodeId)
      requires Inv() && n in nodes && outside[n] >= 1 && refcnt[n] > 1
      modifies this`refcnt, this`outside
      ensures Inv() && outside == old(outside) - multiset{n} && refcnt == old(refcnt)[n := old(refcnt[n]) - 1]
    {
      hide Acyclic, NodesOk, WF, RefsOk, Booked;
      ghost var others := Others();
      BookEmpty(nodes.Keys, edges, refcnt, others, base);
      BookKeys(nodes.Keys, edges, refcnt, log, others, base);
      LastRef(nodes.Keys, edges, refcnt, others, n);
      outside := outside - multiset{n};
      refcnt := refcnt[n := refcnt[n] - 1];
      assert Others() == others - multiset{n};
      BookEmpty(nodes.Keys, edges, refcnt, Others(), base);
    }

    /** Every node has a count. */
    lemma Counted(n: NodeId)
      requires Inv() && n in nodes
      ensures n in refcnt && refcnt[n] >= 1
    {
      BookKeys(nodes.Keys, edges, refcnt, log, Others(), base);
    }

    /** The last reference is held by its dropper alone, and no link points at the node. */
    lemma LastHolder(n: NodeId)
      requires Inv() && n in nodes && outside[n] >= 1 && refcnt[n] == 1
      ensures outside[n] == 1 && n !in scheduled
      ensures forall e :: e in edges ==> edges[e].target != Some(n)
    {
      BookEmpty(nodes.Keys, edges, refcnt, Others(), base);
      LastRef(nodes.Keys, edges, refcnt, Others(), n);
      assert multiset(scheduled)[n] == 0;
    }

    /** bdrv_delete of a node that has given up its own child links. */
    method DeleteNode(n: NodeId)
      requires Inv() && n in nodes && outside[n] >= 1 && refcnt[n] == 1
      requires forall e :: e in edges ==> edges[e].parent != Bds(n)
      modifies this`refcnt, this`outside, this`nodes, this`parents, this`children
      ensures Inv() && outside == old(outside) - multiset{n} && nodes == old(nodes) - {n}
      ensures old(LinksCover(G())) ==> LinksCover(G())
    {
      hide Inv, Sound, WF, LinksCover;
      ghost var g := G();
      Counted(n);
      InvIsSound();
      DeleteSound(g, refcnt, nextEdge, scheduled, outside, n);
      outside := outside - multiset{n};
      refcnt := refcnt[n := refcnt[n] - 1] - {n};
      nodes := nodes - {n};
      parents := parents - {n};
      children := children - {n};
      assert G() == DroppedNode(g, n);
      InvIsSound();
    }

    static function DroppedNode(g: Graph, n: NodeId): Graph {
      Graph(g.nodes - {n}, g.edges, g.parents - {n}, g.children - {n})
    }

    static lemma DeleteSound(g: Graph, refcnt: map<NodeId, int>, nextEdge: EdgeId, scheduled: seq<NodeId>,
                             outside: multiset<NodeId>, n: NodeId)
      requires Sound(g, refcnt, nextEdge, scheduled, outside) && n in g.nodes && outside[n] >= 1
      requires n in refcnt && refcnt[n] == 1 && forall e :: e in g.edges ==> g.edges[e].parent != Bds(n)
      ensures Sound(DroppedNode(g, n), refcnt[n := refcnt[n] - 1] - {n}, nextEdge, scheduled, outside - multiset{n})
      ensures WF(DroppedNode(g, n)) && (LinksCover(g) ==> LinksCover(DroppedNode(g, n)))
    {
      hide Acyclic, NodesOk, WF, RefsOk, LinksCover, NumbersBelow;
      var others := multiset(scheduled) + outside;
      LastRef(g.nodes.Keys, g.edges, refcnt, others, n);
      DropNodeRefs(g.nodes.Keys, g.edges, refcnt, others, n);
      assert multiset(scheduled) + (outside - multiset{n}) == others - multiset{n};
      assert DroppedNode(g, n).nodes.Keys == g.nodes.Keys - {n};
      assert multiset(scheduled)[n] == 0;
      DropNodeKeeps(g, DroppedNode(g, n), n);
    }

    /** bdrv_freeze_backing_chain and its inverse, on one link. */
    method SetFrozen(e: EdgeId, frozen: bool)
      requires Inv() && e in edges
      modifies this`edges, this`base
      ensures Inv() && edges == old(edges)[e := old(edges)[e].(frozen := frozen)]
      ensures old(LinksCover(G())) ==> LinksCover(G())
    {
      hide Acyclic, NodesOk, WF, RefsOk, Booked, LinksCover, NumbersBelow;
      ghost var g := G();
      BookEmpty(nodes.Keys, edges, refcnt, Others(), base);
      edges := edges[e := edges[e].(frozen := frozen)];
      base := edges;
      FrozenKeeps(g, G(), e, frozen);
      FrozenRefs(nodes.Keys, g.edges, refcnt, Others(), e, frozen);
      BookEmpty(nodes.Keys, edges, refcnt, Others(), base);
      SameNumbers(g.edges, edges, nextEdge);
    }

    static lemma SameNumbers(a: map<EdgeId, Edge>, b: map<EdgeId, Edge>, k: nat)
      requires NumbersBelow(a, k) && b.Keys == a.Keys
      ensures NumbersBelow(b, k)
    {
    }

    static lemma FrozenRefs(nodes: set<NodeId>, edges: map<EdgeId, Edge>, refcnt: map<NodeId, int>,
                            others: multiset<NodeId>, e: EdgeId, b: bool)
      requires RefsOk(nodes, edges, refcnt, [], others) && e in edges
      ensures RefsOk(nodes, edges[e := edges[e].(frozen := b)], refcnt, [], others)
    {
      var u := edges[e := edges[e].(frozen := b)];
      forall n | n in nodes ensures RefsAt(u, refcnt, [], others, n) {
        assert RefsAt(edges, refcnt, [], others, n);
        assert In(u, n) == In(edges, n);
      }
    }

    static lemma LastRef(nodes: set<NodeId>, edges: map<EdgeId, Edge>, refcnt: map<NodeId, int>,
                         others: multiset<NodeId>, n: NodeId)
      requires RefsOk(nodes, edges, refcnt, [], others) && n in nodes && others[n] >= 1
      ensures RefsOk(nodes, edges, refcnt[n := refcnt[n] - 1], [], others - multiset{n})
      ensures refcnt[n] == 1 ==> (forall e :: e in edges ==> edges[e].target != Some(n)) && others[n] == 1
    {
      forall m | m in nodes ensures RefsAt(edges, refcnt[n := refcnt[n] - 1], [], others - multiset{n}, m) {
        assert RefsAt(edges, refcnt, [], others, m);
      }
      if refcnt[n] == 1 {
        assert RefsAt(edges, refcnt, [], others, n);
        assert In(edges, n) == {};
        forall e | e in edges ensures edges[e].target != Some(n) {
          assert Points(edges, e, n) ==> e in In(edges, n);
        }
      }
    }

    static lemma DropNodeRefs(nodes: set<NodeId>, edges: map<EdgeId, Edge>, refcnt: map<NodeId, int>,
                              others: multiset<NodeId>, n: NodeId)
      requires RefsOk(nodes, edges, refcnt, [], others) && n in nodes && others[n] >= 1
      ensures RefsOk(nodes - {n}, edges, refcnt[n := refcnt[n] - 1] - {n}, [], others - multiset{n})
    {
      LastRef(nodes, edges, refcnt, others, n);
      var r := refcnt[n := refcnt[n] - 1];
      forall m | m in nodes - {n} ensures RefsAt(edges, r - {n}, [], others - multiset{n}, m) {
        assert RefsAt(edges, r, [], others - multiset{n}, m);
      }
    }

    /** bdrv_new: a node nobody but its creator refers to. */
    method NewNode(n: NodeId, node: Node)
      requires Inv() && n !in nodes && n !in outside && n !in scheduled
      modifies this`nodes, this`parents, this`children, this`refcnt, this`outside
      ensures Inv() && nodes == old(nodes)[n := node] && outside == old(outside) + multiset{n}
      ensures old(LinksCover(G())) ==> LinksCover(G())
    {
      hide Inv, Sound, WF, LinksCover;
      ghost var g := G();
      InvIsSound();
      AddSound(g, refcnt, nextEdge, scheduled, outside, n, node);
      nodes := nodes[n := node];
      parents := parents[n := []];
      children := children[n := []];
      refcnt := refcnt[n := 1];
      outside := outside + multiset{n};
      assert G() == AddedNode(g, n, node);
      InvIsSound();
    }

    static function AddedNode(g: Graph, n: NodeId, node: Node): Graph {
      Graph(g.nodes[n := node], g.edges, g.parents[n := []], g.children[n := []])
    }

    static lemma AddSound(g: Graph, refcnt: map<NodeId, int>, nextEdge: EdgeId, scheduled: seq<NodeId>,
                          outside: multiset<NodeId>, n: NodeId, node: Node)
      requires Sound(g, refcnt, nextEdge, scheduled, outside) && n !in g.nodes && n !in outside && n !in scheduled
      ensures Sound(AddedNode(g, n, node), refcnt[n := 1], nextEdge, scheduled, outside + multiset{n})
      ensures WF(AddedNode(g, n, node)) && (LinksCover(g) ==> LinksCover(AddedNode(g, n, node)))
    {
      hide Acyclic, NodesOk, WF, RefsOk, LinksCover, NumbersBelow;
      var others := multiset(scheduled) + outside;
      AddNodeRefs(g, g.edges, refcnt, others, n);
      assert multiset(scheduled) + (outside + multiset{n}) == others + multiset{n};
      assert AddedNode(g, n, node).nodes.Keys == g.nodes.Keys + {n};
      AddNodeKeeps(g, AddedNode(g, n, node), n, node);
    }

    static lemma AddNodeRefs(g: Graph, edges: map<EdgeId, Edge>, refcnt: map<NodeId, int>, others: multiset<NodeId>,
                             n: NodeId)
      requires WF(g) && g.edges == edges && n !in g.nodes && n !in others
      requires RefsOk(g.nodes.Keys, edges, refcnt, [], others)
      ensures RefsOk(g.nodes.Keys + {n}, edges, refcnt[n := 1], [], others + multiset{n})
    {
      forall m | m in g.nodes.Keys + {n} ensures RefsAt(edges, refcnt[n := 1], [], others + multiset{n}, m) {
        if m == n {
          forall e | e in edges ensures !Points(edges, e, n) { assert EdgeOk(g, e); }
          assert In(edges, n) == {};
        } else {
          assert RefsAt(edges, refcnt, [], others, m);
        }
      }
    }

    /** bdrv_ref by somebody outside the graph. */
    method TakeRef(n: NodeId)
      requires Inv() && n in nodes
      modifies this`refcnt, this`outside
      ensures Inv() && outside == old(outside) + multiset{n} && refcnt == Bump(old(refcnt), Some(n), 1)
    {
      hide Acyclic, NodesOk, WF, Booked;
      ghost var others := Others();
      BookEmpty(nodes.Keys, edges, refcnt, others, base);
      BookKeys(nodes.Keys, edges, refcnt, log, others, base);
      refcnt := Bump(refcnt, Some(n), 1);
      outside := outside + multiset{n};
      assert Others() == others + multiset{n};
      forall m | m in nodes ensures RefsAt(edges, refcnt, [], Others(), m) {
        assert RefsAt(edges, old(refcnt), [], others, m);
      }
      BookEmpty(nodes.Keys, edges, refcnt, Others(), base);
    }
  }
}
