/** The transaction log of the block layer: what each record undoes, that a log
    rolled back newest-first restores every link, and who holds node references. */
module Tran {
  import opened Options
  import opened Numbers
  import opened Perms
  import opened Seqs
  import opened BlockGraph

  datatype Action =
    | SetPermAct(edge: EdgeId, oldPerm: Mask, oldShared: Mask)
    | ReplaceAct(edge: EdgeId, oldBs: Option<NodeId>)
    | AttachAct(edge: EdgeId)
    | RemoveAct(edge: EdgeId)

  /** The record can be undone on these links. */
  predicate CanUndo(nodes: set<NodeId>, edges: map<EdgeId, Edge>, a: Action) {
    && a.edge in edges
    && match a
       case SetPermAct(_, _, _) => true
       case ReplaceAct(e, old_) => edges[e].target != old_ && (old_.Some? ==> old_.value in nodes) && !edges[e].frozen
       case AttachAct(e) => edges[e].target.Some? && !edges[e].frozen
       case RemoveAct(_) => true
  }

  function Undo(edges: map<EdgeId, Edge>, a: Action): map<EdgeId, Edge>
    requires a.edge in edges
  {
    match a
    case SetPermAct(e, p, s) => edges[e := edges[e].(perm := p, shared := s)]
    case ReplaceAct(e, t) => edges[e := edges[e].(target := t)]
    case AttachAct(e) => edges - {e}
    case RemoveAct(_) => edges
  }

  /** The log, newest record first, leads from `edges` back to `base`. */
  ghost predicate Rolls(nodes: set<NodeId>, edges: map<EdgeId, Edge>, log: seq<Action>, base: map<EdgeId, Edge>) {
    if log == [] then edges == base
    else CanUndo(nodes, edges, log[0]) && Rolls(nodes, Undo(edges, log[0]), log[1..], base)
  }

  lemma RollsOn(nodes: set<NodeId>, edges: map<EdgeId, Edge>, log: seq<Action>, base: map<EdgeId, Edge>,
                edges1: map<EdgeId, Edge>, a: Action)
    requires Rolls(nodes, edges, log, base)
    requires CanUndo(nodes, edges1, a) && Undo(edges1, a) == edges
    ensures Rolls(nodes, edges1, [a] + log, base)
  {
    assert ([a] + log)[1..] == log;
  }

  lemma RollsBack(nodes: set<NodeId>, edges: map<EdgeId, Edge>, log: seq<Action>, base: map<EdgeId, Edge>)
    requires Rolls(nodes, edges, log, base)
    ensures log == [] ==> edges == base
    ensures log != [] ==> CanUndo(nodes, edges, log[0]) && Rolls(nodes, Undo(edges, log[0]), log[1..], base)
  {
  }

  /** References to `n` held by replace records of the log. */
  function Held(log: seq<Action>, n: NodeId): nat {
    if log == [] then 0
    else (if log[0].ReplaceAct? && log[0].oldBs == Some(n) then 1 else 0) + Held(log[1..], n)
  }

  lemma HeldOn(a: Action, log: seq<Action>, n: NodeId)
    ensures Held([a] + log, n) == (if a.ReplaceAct? && a.oldBs == Some(n) then 1 else 0) + Held(log, n)
  {
    assert ([a] + log)[1..] == log;
  }

  /** The links that point at `n`. */
  ghost function In(edges: map<EdgeId, Edge>, n: NodeId): set<EdgeId> {
    set e | e in edges && Points(edges, e, n)
  }

  lemma InRedirect(edges: map<EdgeId, Edge>, e: EdgeId, t: Option<NodeId>, n: NodeId)
    requires e in edges
    ensures |In(edges[e := edges[e].(target := t)], n)| + One(edges[e].target == Some(n))
         == |In(edges, n)| + One(t == Some(n))
  {
    var u := edges[e := edges[e].(target := t)];
    var rest := In(edges, n) - {e};
    assert In(edges, n) == if edges[e].target == Some(n) then rest + {e} else rest;
    assert In(u, n) == if t == Some(n) then rest + {e} else rest;
  }

  lemma InDrop(edges: map<EdgeId, Edge>, e: EdgeId, n: NodeId)
    requires e in edges
    ensures |In(edges - {e}, n)| + One(edges[e].target == Some(n)) == |In(edges, n)|
  {
    var rest := In(edges - {e}, n);
    assert In(edges, n) == if edges[e].target == Some(n) then rest + {e} else rest;
  }

  lemma InAfterUndo(nodes: set<NodeId>, edges: map<EdgeId, Edge>, a: Action, n: NodeId)
    requires CanUndo(nodes, edges, a)
    ensures |In(edges, n)| + Held([a], n) >= |In(Undo(edges, a), n)|
  {
    match a
    case SetPermAct(e, p, s) =>
      assert In(Undo(edges, a), n) == In(edges, n);
    case ReplaceAct(e, t) =>
      InRedirect(edges, e, t, n);
    case AttachAct(e) =>
      InDrop(edges, e, n);
    case RemoveAct(_) =>
  }

  /** Links to `n` plus references held by the log never fall below what the
      rollback will need. */
  lemma {:induction false} RollKeepsEnough(nodes: set<NodeId>, edges: map<EdgeId, Edge>, log: seq<Action>,
                                           base: map<EdgeId, Edge>, n: NodeId)
    requires Rolls(nodes, edges, log, base)
    ensures |In(edges, n)| + Held(log, n) >= |In(base, n)|
    decreases |log|
  {
    if log != [] {
      RollKeepsEnough(nodes, Undo(edges, log[0]), log[1..], base, n);
      InAfterUndo(nodes, edges, log[0], n);
      assert Held([log[0]], n) + Held(log[1..], n) == Held(log, n);
    }
  }

  /** Who holds references: links, replace records of the open transaction,
      scheduled unrefs, and holders outside the graph. */
  ghost predicate RefsAt(edges: map<EdgeId, Edge>, refcnt: map<NodeId, int>, log: seq<Action>,
                         others: multiset<NodeId>, n: NodeId) {
    n in refcnt && refcnt[n] == |In(edges, n)| + Held(log, n) + others[n]
  }

  ghost predicate RefsOk(nodes: set<NodeId>, edges: map<EdgeId, Edge>, refcnt: map<NodeId, int>, log: seq<Action>,
                         others: multiset<NodeId>) {
    refcnt.Keys == nodes && forall n {:trigger RefsAt(edges, refcnt, log, others, n)} :: n in nodes ==>
                              RefsAt(edges, refcnt, log, others, n)
  }

  lemma RefsOf(nodes: set<NodeId>, edges: map<EdgeId, Edge>, refcnt: map<NodeId, int>, log: seq<Action>,
               others: multiset<NodeId>)
    requires RefsOk(nodes, edges, refcnt, log, others)
    ensures refcnt.Keys == nodes
    ensures forall n :: n in nodes ==> refcnt[n] == |In(edges, n)| + Held(log, n) + others[n]
  {
    forall n | n in nodes ensures refcnt[n] == |In(edges, n)| + Held(log, n) + others[n] {
      assert RefsAt(edges, refcnt, log, others, n);
    }
  }

  /** bdrv_ref and bdrv_unref, on a node or on nothing. */
  function Bump(refcnt: map<NodeId, int>, t: Option<NodeId>, d: int): (r: map<NodeId, int>)
    requires t.Some? ==> t.value in refcnt
    ensures r.Keys == refcnt.Keys
    ensures forall n :: n in refcnt ==> r[n] == refcnt[n] + (if t == Some(n) then d else 0)
  {
    if t.Some? then refcnt[t.value := refcnt[t.value] + d] else refcnt
  }

  lemma RefsSetPerm(nodes: set<NodeId>, edges: map<EdgeId, Edge>, refcnt: map<NodeId, int>, log: seq<Action>,
                    others: multiset<NodeId>, e: EdgeId, p: Mask, s: Mask)
    requires RefsOk(nodes, edges, refcnt, log, others) && e in edges
    ensures RefsOk(nodes, edges[e := edges[e].(perm := p, shared := s)], refcnt, log, others)
    ensures RefsOk(nodes, edges, refcnt, [SetPermAct(e, p, s)] + log, others)
    ensures RefsOk(nodes, edges, refcnt, [RemoveAct(e)] + log, others)
  {
    forall n | n in nodes
      ensures RefsAt(edges[e := edges[e].(perm := p, shared := s)], refcnt, log, others, n)
      ensures RefsAt(edges, refcnt, [SetPermAct(e, p, s)] + log, others, n)
      ensures RefsAt(edges, refcnt, [RemoveAct(e)] + log, others, n)
    {
      assert RefsAt(edges, refcnt, log, others, n);
      assert In(edges[e := edges[e].(perm := p, shared := s)], n) == In(edges, n);
      HeldOn(SetPermAct(e, p, s), log, n);
      HeldOn(RemoveAct(e), log, n);
    }
  }

  lemma RefsReplace(nodes: set<NodeId>, edges: map<EdgeId, Edge>, refcnt: map<NodeId, int>, log: seq<Action>,
                    others: multiset<NodeId>, e: EdgeId, t: Option<NodeId>)
    requires RefsOk(nodes, edges, refcnt, log, others) && e in edges && (t.Some? ==> t.value in nodes)
    ensures RefsOk(nodes, edges[e := edges[e].(target := t)], Bump(refcnt, t, 1),
                   [ReplaceAct(e, edges[e].target)] + log, others)
  {
    var u, a := edges[e := edges[e].(target := t)], ReplaceAct(e, edges[e].target);
    forall n | n in nodes ensures RefsAt(u, Bump(refcnt, t, 1), [a] + log, others, n) {
      assert RefsAt(edges, refcnt, log, others, n);
      InRedirect(edges, e, t, n);
      HeldOn(a, log, n);
    }
  }

  lemma RefsUndoReplace(nodes: set<NodeId>, edges: map<EdgeId, Edge>, refcnt: map<NodeId, int>, log: seq<Action>,
                        others: multiset<NodeId>, e: EdgeId, t: Option<NodeId>)
    requires RefsOk(nodes, edges, refcnt, [ReplaceAct(e, t)] + log, others) && e in edges
    requires edges[e].target.Some? ==> edges[e].target.value in nodes
    ensures RefsOk(nodes, edges[e := edges[e].(target := t)], Bump(refcnt, edges[e].target, -1), log, others)
  {
    var u := edges[e := edges[e].(target := t)];
    forall n | n in nodes ensures RefsAt(u, Bump(refcnt, edges[e].target, -1), log, others, n) {
      assert RefsAt(edges, refcnt, [ReplaceAct(e, t)] + log, others, n);
      InRedirect(edges, e, t, n);
      HeldOn(ReplaceAct(e, t), log, n);
    }
  }

  lemma RefsAttach(nodes: set<NodeId>, edges: map<EdgeId, Edge>, refcnt: map<NodeId, int>, log: seq<Action>,
                   others: multiset<NodeId>, e: EdgeId, c: Edge)
    requires RefsOk(nodes, edges, refcnt, log, others) && e !in edges
    requires c.target.Some? ==> c.target.value in nodes
    ensures RefsOk(nodes, edges[e := c], Bump(refcnt, c.target, 1), [AttachAct(e)] + log, others)
  {
    var u := edges[e := c];
    forall n | n in nodes ensures RefsAt(u, Bump(refcnt, c.target, 1), [AttachAct(e)] + log, others, n) {
      assert RefsAt(edges, refcnt, log, others, n);
      assert u - {e} == edges;
      InDrop(u, e, n);
      HeldOn(AttachAct(e), log, n);
    }
  }

  lemma RefsUndoAttach(nodes: set<NodeId>, edges: map<EdgeId, Edge>, refcnt: map<NodeId, int>, log: seq<Action>,
                       others: multiset<NodeId>, e: EdgeId, n0: NodeId)
    requires RefsOk(nodes, edges, refcnt, [AttachAct(e)] + log, others) && e in edges && edges[e].target == Some(n0)
    ensures RefsOk(nodes, edges - {e}, refcnt, log, others + multiset{n0})
  {
    forall n | n in nodes ensures RefsAt(edges - {e}, refcnt, log, others + multiset{n0}, n) {
      assert RefsAt(edges, refcnt, [AttachAct(e)] + log, others, n);
      InDrop(edges, e, n);
      HeldOn(AttachAct(e), log, n);
    }
  }

  lemma RefsUndoNeutral(nodes: set<NodeId>, edges: map<EdgeId, Edge>, refcnt: map<NodeId, int>, log: seq<Action>,
                        others: multiset<NodeId>, a: Action)
    requires RefsOk(nodes, edges, refcnt, [a] + log, others) && !a.ReplaceAct?
    ensures RefsOk(nodes, edges, refcnt, log, others)
  {
    forall n | n in nodes ensures RefsAt(edges, refcnt, log, others, n) {
      assert RefsAt(edges, refcnt, [a] + log, others, n);
      HeldOn(a, log, n);
    }
  }

  /** On commit a replace record hands its reference to a scheduled unref. */
  lemma RefsCommitReplace(nodes: set<NodeId>, edges: map<EdgeId, Edge>, refcnt: map<NodeId, int>, log: seq<Action>,
                          others: multiset<NodeId>, e: EdgeId, n0: NodeId)
    requires RefsOk(nodes, edges, refcnt, [ReplaceAct(e, Some(n0))] + log, others)
    ensures RefsOk(nodes, edges, refcnt, log, others + multiset{n0})
  {
    forall n | n in nodes ensures RefsAt(edges, refcnt, log, others + multiset{n0}, n) {
      assert RefsAt(edges, refcnt, [ReplaceAct(e, Some(n0))] + log, others, n);
      HeldOn(ReplaceAct(e, Some(n0)), log, n);
    }
  }

  lemma RefsCommitNothing(nodes: set<NodeId>, edges: map<EdgeId, Edge>, refcnt: map<NodeId, int>, log: seq<Action>,
                          others: multiset<NodeId>, e: EdgeId)
    requires RefsOk(nodes, edges, refcnt, [ReplaceAct(e, None)] + log, others)
    ensures RefsOk(nodes, edges, refcnt, log, others)
  {
    forall n | n in nodes ensures RefsAt(edges, refcnt, log, others, n) {
      assert RefsAt(edges, refcnt, [ReplaceAct(e, None)] + log, others, n);
      HeldOn(ReplaceAct(e, None), log, n);
    }
  }

  lemma RefsDropDetached(nodes: set<NodeId>, edges: map<EdgeId, Edge>, refcnt: map<NodeId, int>, log: seq<Action>,
                         others: multiset<NodeId>, e: EdgeId)
    requires RefsOk(nodes, edges, refcnt, log, others) && e in edges && edges[e].target == None
    ensures RefsOk(nodes, edges - {e}, refcnt, log, others)
  {
    forall n | n in nodes ensures RefsAt(edges - {e}, refcnt, log, others, n) {
      assert RefsAt(edges, refcnt, log, others, n);
      InDrop(edges, e, n);
    }
  }

  /** Taking a link away outside a transaction schedules the unref of its node. */
  lemma RefsUnlink(nodes: set<NodeId>, edges: map<EdgeId, Edge>, refcnt: map<NodeId, int>,
                   others: multiset<NodeId>, e: EdgeId, n0: NodeId)
    requires RefsOk(nodes, edges, refcnt, [], others) && e in edges && edges[e].target == Some(n0)
    ensures RefsOk(nodes, edges - {e}, refcnt, [], others + multiset{n0})
  {
    forall n | n in nodes ensures RefsAt(edges - {e}, refcnt, [], others + multiset{n0}, n) {
      assert RefsAt(edges, refcnt, [], others, n);
      InDrop(edges, e, n);
    }
  }

  /** Everything a transaction keeps true of the links, the log and the counts. */
  ghost predicate Booked(nodes: set<NodeId>, edges: map<EdgeId, Edge>, refcnt: map<NodeId, int>, log: seq<Action>,
                         others: multiset<NodeId>, base: map<EdgeId, Edge>) {
    Rolls(nodes, edges, log, base) && RefsOk(nodes, edges, refcnt, log, others)
  }

  lemma BookKeys(nodes: set<NodeId>, edges: map<EdgeId, Edge>, refcnt: map<NodeId, int>, log: seq<Action>,
                 others: multiset<NodeId>, base: map<EdgeId, Edge>)
    requires Booked(nodes, edges, refcnt, log, others, base)
    ensures refcnt.Keys == nodes
  {
  }

  lemma BookSetPerm(nodes: set<NodeId>, edges: map<EdgeId, Edge>, refcnt: map<NodeId, int>, log: seq<Action>,
                    others: multiset<NodeId>, base: map<EdgeId, Edge>, e: EdgeId, p: Mask, s: Mask)
    requires Booked(nodes, edges, refcnt, log, others, base) && e in edges
    ensures Booked(nodes, edges[e := edges[e].(perm := p, shared := s)], refcnt,
                   [SetPermAct(e, edges[e].perm, edges[e].shared)] + log, others, base)
  {
    var u := edges[e := edges[e].(perm := p, shared := s)];
    var a := SetPermAct(e, edges[e].perm, edges[e].shared);
    assert Undo(u, a) == edges;
    RollsOn(nodes, edges, log, base, u, a);
    RefsSetPerm(nodes, edges, refcnt, log, others, e, p, s);
    RefsSetPerm(nodes, u, refcnt, log, others, e, a.oldPerm, a.oldShared);
  }

  lemma BookReplace(nodes: set<NodeId>, edges: map<EdgeId, Edge>, refcnt: map<NodeId, int>, log: seq<Action>,
                    others: multiset<NodeId>, base: map<EdgeId, Edge>, e: EdgeId, t: Option<NodeId>)
    requires Booked(nodes, edges, refcnt, log, others, base) && e in edges && edges[e].target != t && !edges[e].frozen
    requires (t.Some? ==> t.value in nodes) && (edges[e].target.Some? ==> edges[e].target.value in nodes)
    ensures Booked(nodes, edges[e := edges[e].(target := t)], Bump(refcnt, t, 1),
                   [ReplaceAct(e, edges[e].target)] + log, others, base)
  {
    var u, a := edges[e := edges[e].(target := t)], ReplaceAct(e, edges[e].target);
    assert Undo(u, a) == edges;
    RollsOn(nodes, edges, log, base, u, a);
    RefsReplace(nodes, edges, refcnt, log, others, e, t);
  }

  lemma BookAttach(nodes: set<NodeId>, edges: map<EdgeId, Edge>, refcnt: map<NodeId, int>, log: seq<Action>,
                   others: multiset<NodeId>, base: map<EdgeId, Edge>, e: EdgeId, c: Edge)
    requires Booked(nodes, edges, refcnt, log, others, base) && e !in edges
    requires c.target.Some? && c.target.value in nodes && !c.frozen
    ensures Booked(nodes, edges[e := c], Bump(refcnt, c.target, 1), [AttachAct(e)] + log, others, base)
  {
    assert Undo(edges[e := c], AttachAct(e)) == edges;
    RollsOn(nodes, edges, log, base, edges[e := c], AttachAct(e));
    RefsAttach(nodes, edges, refcnt, log, others, e, c);
  }

  lemma BookRemove(nodes: set<NodeId>, edges: map<EdgeId, Edge>, refcnt: map<NodeId, int>, log: seq<Action>,
                   others: multiset<NodeId>, base: map<EdgeId, Edge>, e: EdgeId)
    requires Booked(nodes, edges, refcnt, log, others, base) && e in edges
    ensures Booked(nodes, edges, refcnt, [RemoveAct(e)] + log, others, base)
  {
    RollsOn(nodes, edges, log, base, edges, RemoveAct(e));
    RefsSetPerm(nodes, edges, refcnt, log, others, e, NONE, NONE);
  }

  /** Nothing was redirected, so a rollback touches no reference count. */
  predicate NoRedirect(log: seq<Action>) {
    log == [] || (!log[0].ReplaceAct? && NoRedirect(log[1..]))
  }

  /** The links a commit will free. */
  function Removed(log: seq<Action>): set<EdgeId> {
    if log == [] then {}
    else (if log[0].RemoveAct? then {log[0].edge} else {}) + Removed(log[1..])
  }

  /** Each of them is detached, and removed once. */
  predicate RemovalsOk(edges: map<EdgeId, Edge>, log: seq<Action>) {
    if log == [] then true
    else
      && (log[0].RemoveAct? ==> log[0].edge in edges && edges[log[0].edge].target == None
                                && log[0].edge !in Removed(log[1..]))
      && RemovalsOk(edges, log[1..])
  }

  lemma {:induction false} RemovedDetached(edges: map<EdgeId, Edge>, log: seq<Action>)
    requires RemovalsOk(edges, log)
    ensures forall e :: e in Removed(log) ==> e in edges && edges[e].target == None
  {
    if log != [] {
      RemovedDetached(edges, log[1..]);
    }
  }

  lemma {:induction false} RemovalsKept(edges: map<EdgeId, Edge>, edges1: map<EdgeId, Edge>, log: seq<Action>)
    requires RemovalsOk(edges, log)
    requires forall e :: e in Removed(log) ==> e in edges1 && edges1[e].target == None
    ensures RemovalsOk(edges1, log)
  {
    if log != [] {
      RemovalsKept(edges, edges1, log[1..]);
    }
  }

  lemma NoRemovals(edges: map<EdgeId, Edge>, log: seq<Action>)
    requires Removed(log) == {}
    ensures RemovalsOk(edges, log)
  {
    if log != [] {
      assert Removed(log[1..]) <= Removed(log);
      NoRemovals(edges, log[1..]);
    }
  }

  /** Nodes named by replace records exist. */
  predicate OldNodesIn(nodes: set<NodeId>, log: seq<Action>) {
    forall i :: 0 <= i < |log| && log[i].ReplaceAct? && log[i].oldBs.Some? ==> log[i].oldBs.value in nodes
  }

  lemma {:induction false} RollsNodes(nodes: set<NodeId>, edges: map<EdgeId, Edge>, log: seq<Action>,
                                      base: map<EdgeId, Edge>)
    requires Rolls(nodes, edges, log, base)
    ensures OldNodesIn(nodes, log)
    decreases |log|
  {
    if log != [] {
      RollsNodes(nodes, Undo(edges, log[0]), log[1..], base);
      forall i | 0 <= i < |log| && log[i].ReplaceAct? && log[i].oldBs.Some? ensures log[i].oldBs.value in nodes {
        if i > 0 {
          assert log[i] == log[1..][i - 1];
        }
      }
    }
  }

  lemma BookEmpty(nodes: set<NodeId>, edges: map<EdgeId, Edge>, refcnt: map<NodeId, int>,
                  others: multiset<NodeId>, base: map<EdgeId, Edge>)
    ensures Booked(nodes, edges, refcnt, [], others, base) <==>
              edges == base && RefsOk(nodes, edges, refcnt, [], others)
  {
  }
}
