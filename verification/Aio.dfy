/** Moving part of the block graph to another AioContext: the recursion collects
    everything connected, the transaction then switches all of it or nothing. */
module Aio {
  import opened Options
  import opened Seqs
  import opened BlockGraph

  /** Whatever has an AioContext of its own. */
  datatype Vertex = NodeV(n: NodeId) | BackendV(b: nat) | JobV(j: nat)

  /** What decides whether a BlockBackend lets its context be changed. */
  datatype BackendState = BackendState(allowChange: bool, named: bool, hasDevice: bool)

  type Context = nat

  /** The graph, the links each block job owns, and the BlockBackends. */
  datatype World = World(g: Graph, jobs: map<nat, seq<EdgeId>>, backends: map<nat, BackendState>)

  function Owner(c: Edge): Vertex {
    match c.parent
    case Bds(p) => NodeV(p)
    case Backend(b) => BackendV(b)
    case Job(j) => JobV(j)
  }

  predicate Exists(w: World, v: Vertex) {
    match v
    case NodeV(n) => n in w.g.nodes
    case BackendV(b) => b in w.backends
    case JobV(j) => j in w.jobs
  }

  ghost predicate LinkOk(w: World, e: EdgeId)
    requires e in w.g.edges
  {
    w.g.edges[e].target.Some? && Exists(w, Owner(w.g.edges[e])) && Exists(w, NodeV(w.g.edges[e].target.value))
  }

  ghost predicate JobOk(w: World, j: nat)
    requires j in w.jobs
  {
    forall e :: e in w.jobs[j] <==> e in w.g.edges && w.g.edges[e].parent == Job(j)
  }

  /** A BlockBackend has one root. */
  ghost predicate OneRoot(w: World, b: nat) {
    forall e, d :: e in w.g.edges && d in w.g.edges && w.g.edges[e].parent == Backend(b) == w.g.edges[d].parent ==>
        e == d
  }

  ghost predicate Valid(w: World) {
    && WF(w.g)
    && (forall e {:trigger LinkOk(w, e)} :: e in w.g.edges ==> LinkOk(w, e))
    && (forall j {:trigger JobOk(w, j)} :: j in w.jobs ==> JobOk(w, j))
    && (forall b {:trigger OneRoot(w, b)} :: b in w.backends ==> OneRoot(w, b))
  }

  predicate Accepts(s: BackendState) {
    s.allowChange || (s.named && !s.hasDevice)
  }

  // ---------------------------------------------------------------------------
  // Connectivity.

  /** A link at vertex `v`. Nothing is reached through a BlockBackend. */
  predicate At(w: World, e: EdgeId, v: Vertex) {
    && e in w.g.edges && w.g.edges[e].target.Some? && !v.BackendV?
    && (v == NodeV(w.g.edges[e].target.value) || v == Owner(w.g.edges[e]))
  }

  predicate EndOf(w: World, e: EdgeId, v: Vertex) {
    && e in w.g.edges && w.g.edges[e].target.Some?
    && (v == NodeV(w.g.edges[e].target.value) || v == Owner(w.g.edges[e]))
  }

  /** From `a` to `b` over one link other than the ignored one. */
  ghost predicate Hop(w: World, skip: Option<EdgeId>, a: Vertex, b: Vertex) {
    exists e: EdgeId :: At(w, e, a) && EndOf(w, e, b) && skip != Some(e)
  }

  ghost predicate Trail(w: World, skip: Option<EdgeId>, p: seq<Vertex>) {
    p != [] && forall i :: 0 <= i < |p| - 1 ==> Hop(w, skip, p[i], p[i + 1])
  }

  ghost predicate TrailFromTo(w: World, skip: Option<EdgeId>, p: seq<Vertex>, a: Vertex, b: Vertex) {
    Trail(w, skip, p) && p[0] == a && p[|p| - 1] == b
  }

  /** `b` is connected to `a` through parents, children and job siblings. */
  ghost predicate Connected(w: World, skip: Option<EdgeId>, a: Vertex, b: Vertex) {
    exists p :: TrailFromTo(w, skip, p, a, b)
  }

  lemma ConnectedSelf(w: World, skip: Option<EdgeId>, a: Vertex)
    ensures Connected(w, skip, a, a)
  {
    assert TrailFromTo(w, skip, [a], a, a);
  }

  lemma ConnectedHop(w: World, skip: Option<EdgeId>, a: Vertex, b: Vertex, c: Vertex)
    requires Connected(w, skip, a, b) && Hop(w, skip, b, c)
    ensures Connected(w, skip, a, c)
  {
    var p :| TrailFromTo(w, skip, p, a, b);
    var q := p + [c];
    forall i | 0 <= i < |q| - 1 ensures Hop(w, skip, q[i], q[i + 1]) {
      if i < |p| - 1 {
        assert Hop(w, skip, p[i], p[i + 1]);
      }
    }
    assert TrailFromTo(w, skip, q, a, c);
  }

  /** A set of vertices that no hop leaves holds everything connected to it. */
  lemma {:induction false} TrailStaysIn(w: World, skip: Option<EdgeId>, s: iset<Vertex>, p: seq<Vertex>)
    requires Trail(w, skip, p) && p[0] in s
    requires forall a, b :: a in s && Hop(w, skip, a, b) ==> b in s
    ensures p[|p| - 1] in s
    decreases |p|
  {
    if |p| > 1 {
      var q := p[1..];
      assert Hop(w, skip, p[0], p[1]);
      forall i | 0 <= i < |q| - 1 ensures Hop(w, skip, q[i], q[i + 1]) {
        assert Hop(w, skip, p[i + 1], p[i + 2]);
      }
      TrailStaysIn(w, skip, s, q);
    }
  }

  lemma ConnectedStaysIn(w: World, skip: Option<EdgeId>, s: iset<Vertex>, a: Vertex, b: Vertex)
    requires Connected(w, skip, a, b) && a in s
    requires forall x, y :: x in s && Hop(w, skip, x, y) ==> y in s
    ensures b in s
  {
    var p :| TrailFromTo(w, skip, p, a, b);
    TrailStaysIn(w, skip, s, p);
  }

  /** Neighbours share a context. */
  ghost predicate Uniform(w: World, skip: Option<EdgeId>, ctxOf: map<Vertex, Context>) {
    forall a, b :: Hop(w, skip, a, b) && a in ctxOf && b in ctxOf ==> ctxOf[a] == ctxOf[b]
  }

  ghost predicate Placed(w: World, ctxOf: map<Vertex, Context>) {
    forall v :: v in ctxOf <==> Exists(w, v)
  }

  lemma HopEndsExist(w: World, skip: Option<EdgeId>, a: Vertex, b: Vertex)
    requires Valid(w) && Hop(w, skip, a, b)
    ensures Exists(w, a) && Exists(w, b)
  {
    var e: EdgeId :| At(w, e, a) && EndOf(w, e, b) && skip != Some(e);
    assert LinkOk(w, e);
  }

  lemma ConnectedSameContext(w: World, skip: Option<EdgeId>, ctxOf: map<Vertex, Context>, a: Vertex, b: Vertex)
    requires Valid(w) && Placed(w, ctxOf) && Uniform(w, skip, ctxOf) && a in ctxOf && Connected(w, skip, a, b)
    ensures b in ctxOf && ctxOf[b] == ctxOf[a]
  {
    var s := iset v | v in ctxOf && ctxOf[v] == ctxOf[a];
    forall x, y | x in s && Hop(w, skip, x, y) ensures y in s {
      HopEndsExist(w, skip, x, y);
    }
    ConnectedStaysIn(w, skip, s, a, b);
  }

  // ---------------------------------------------------------------------------
  // What the recursion keeps.

  /** Links visited, vertices recorded in the transaction, and vertices on the call
      stack, in a search that started at `root`. */
  ghost predicate Tracked(w: World, skip: Option<EdgeId>, root: Vertex, visited: set<EdgeId>, tran: seq<Vertex>,
                          active: set<Vertex>) {
    && (skip.Some? ==> skip.value in visited)
    && (forall v :: v in tran || v in active ==> Connected(w, skip, root, v))
    && (forall e, v :: e in visited && skip != Some(e) && EndOf(w, e, v) ==> v in tran || v in active)
    && (forall v, e :: v in tran && At(w, e, v) ==> e in visited)
    && (forall b :: BackendV(b) in tran ==> b in w.backends && Accepts(w.backends[b]))
  }

  /** Marking a link of an active vertex makes its other end active. */
  lemma TrackedMark(w: World, skip: Option<EdgeId>, root: Vertex, visited: set<EdgeId>, tran: seq<Vertex>,
                    active: set<Vertex>, e: EdgeId, a: Vertex, b: Vertex)
    requires Tracked(w, skip, root, visited, tran, active) && a in active && e !in visited
    requires At(w, e, a) && EndOf(w, e, b) && forall v :: EndOf(w, e, v) ==> v == a || v == b
    ensures Tracked(w, skip, root, visited + {e}, tran, active + {b})
  {
    assert Hop(w, skip, a, b);
    ConnectedHop(w, skip, root, a, b);
  }

  /** A vertex all of whose links are visited is recorded. */
  lemma TrackedRecord(w: World, skip: Option<EdgeId>, root: Vertex, visited: set<EdgeId>, tran: seq<Vertex>,
                      active: set<Vertex>, v: Vertex)
    requires Tracked(w, skip, root, visited, tran, active) && v in active
    requires forall e :: At(w, e, v) ==> e in visited
    requires v.BackendV? ==> v.b in w.backends && Accepts(w.backends[v.b])
    ensures Tracked(w, skip, root, visited, [v] + tran, active)
  {
  }

  /** And leaves the stack. */
  lemma TrackedReturn(w: World, skip: Option<EdgeId>, root: Vertex, visited: set<EdgeId>, tran: seq<Vertex>,
                      active: set<Vertex>, v: Vertex)
    requires Tracked(w, skip, root, visited, tran, active + {v}) && v in tran
    ensures Tracked(w, skip, root, visited, tran, active)
  {
  }

  /** When the search is over, what was recorded is exactly what is connected. */
  lemma TrackedAll(w: World, skip: Option<EdgeId>, root: Vertex, visited: set<EdgeId>, tran: seq<Vertex>)
    requires Tracked(w, skip, root, visited, tran, {root}) && root in tran
    ensures forall v :: v in tran <==> Connected(w, skip, root, v)
  {
    var s := iset v | v in tran;
    forall a, b | a in s && Hop(w, skip, a, b) ensures b in s {
      var e: EdgeId :| At(w, e, a) && EndOf(w, e, b) && skip != Some(e);
    }
    forall v | Connected(w, skip, root, v) ensures v in tran {
      ConnectedStaysIn(w, skip, s, root, v);
    }
  }

  /** Somewhere in the component sits a BlockBackend that refuses. */
  ghost predicate Blocked(w: World, skip: Option<EdgeId>, root: Vertex) {
    exists b :: Connected(w, skip, root, BackendV(b)) && b in w.backends && !Accepts(w.backends[b])
  }

  lemma LeftFalls(all: set<EdgeId>, visited: set<EdgeId>, visited1: set<EdgeId>)
    requires visited <= visited1
    ensures |all - visited1| <= |all - visited|
    ensures (exists e :: e in all && e !in visited && e in visited1) ==> |all - visited1| < |all - visited|
  {
    var gone := (all - visited) - (all - visited1);
    assert all - visited == (all - visited1) + gone;
  }

  /** Switching everything recorded keeps neighbours together. */
  lemma SwitchedUniform(w: World, skip: Option<EdgeId>, root: Vertex, ctx: Context,
                        ctxOf: map<Vertex, Context>, ctxOf1: map<Vertex, Context>)
    requires Valid(w) && Placed(w, ctxOf) && Uniform(w, skip, ctxOf) && ctxOf1.Keys == ctxOf.Keys
    requires forall v :: v in ctxOf ==> ctxOf1[v] == if Connected(w, skip, root, v) then ctx else ctxOf[v]
    requires root.NodeV?
    ensures Uniform(w, skip, ctxOf1)
  {
    hide Connected;
    forall a, b | Hop(w, skip, a, b) && a in ctxOf && b in ctxOf ensures ctxOf1[a] == ctxOf1[b] {
      if Connected(w, skip, root, a) {
        ConnectedHop(w, skip, root, a, b);
      } else if Connected(w, skip, root, b) {
        ConnectedBack(w, skip, root, a, b);
      }
    }
  }

  lemma LastHop(w: World, skip: Option<EdgeId>, a: Vertex, b: Vertex)
    requires Connected(w, skip, a, b) && a != b
    ensures exists u :: Connected(w, skip, a, u) && Hop(w, skip, u, b)
  {
    var p :| TrailFromTo(w, skip, p, a, b);
    var q := p[..|p| - 1];
    var u := p[|p| - 2];
    assert Hop(w, skip, u, p[|p| - 2 + 1]);
    forall i | 0 <= i < |q| - 1 ensures Hop(w, skip, q[i], q[i + 1]) {
      assert Hop(w, skip, p[i], p[i + 1]);
    }
    assert TrailFromTo(w, skip, q, a, u);
  }

  /** Hops can be taken back; into a BlockBackend there is only one. */
  lemma ConnectedBack(w: World, skip: Option<EdgeId>, root: Vertex, a: Vertex, b: Vertex)
    requires Valid(w) && root.NodeV? && Hop(w, skip, a, b) && Connected(w, skip, root, b)
    ensures Connected(w, skip, root, a)
  {
    hide Connected;
    var e: EdgeId :| At(w, e, a) && EndOf(w, e, b) && skip != Some(e);
    if b.BackendV? {
      LastHop(w, skip, root, b);
      var u :| Connected(w, skip, root, u) && Hop(w, skip, u, b);
      var d: EdgeId :| At(w, d, u) && EndOf(w, d, b) && skip != Some(d);
      assert LinkOk(w, e) && LinkOk(w, d) && OneRoot(w, b.b);
      assert a == u;
    } else {
      assert At(w, e, b) && EndOf(w, e, a);
      assert Hop(w, skip, b, a);
      ConnectedHop(w, skip, root, b, a);
    }
  }

  // ---------------------------------------------------------------------------
  // The code.

  class Switch {
    const w: World
    var ctxOf: map<Vertex, Context>
    var visited: set<EdgeId>
    var tran: seq<Vertex>            // newest record first

    constructor (w: World, ctxOf: map<Vertex, Context>)
      ensures this.w == w && this.ctxOf == ctxOf
    {
      this.w, this.ctxOf, visited, tran := w, ctxOf, {}, [];
    }

    /** In a `hot` search nothing connected to the root has the new context yet. */
    ghost predicate Searching(hot: bool, skip: Option<EdgeId>, root: Vertex, ctx: Context, active: set<Vertex>)
      reads this
    {
      && Valid(w) && Placed(w, ctxOf)
      && (hot ==> Tracked(w, skip, root, visited, tran, active))
      && (hot ==> forall v :: Connected(w, skip, root, v) && v in ctxOf ==> ctxOf[v] != ctx)
    }

    ghost function Left(): nat
      reads this
    {
      |w.g.edges.Keys - visited|
    }

    /** bdrv_parent_change_aio_context, with the callback of each kind of parent. */
    method ParentChange(c: EdgeId, ctx: Context,
                        ghost hot: bool, ghost skip: Option<EdgeId>, ghost root: Vertex, ghost active: set<Vertex>)
      returns (ok: bool)
      requires Searching(hot, skip, root, ctx, active) && c in w.g.edges && w.g.edges[c].target.Some?
      requires NodeV(w.g.edges[c].target.value) in active
      modifies this`visited, this`tran
      ensures old(visited) <= visited
      ensures ok ==> Searching(hot, skip, root, ctx, active) && c in visited
      ensures !ok && hot ==> Blocked(w, skip, root)
      decreases Left(), 1
    {
      hide Valid, Tracked, Connected, Blocked;
      if c in visited {
        return true;
      }
      ghost var owner := Owner(w.g.edges[c]);
      LinkGives(w, c);
      LeftFalls(w.g.edges.Keys, visited, visited + {c});
      if hot {
        TrackedMark(w, skip, root, visited, tran, active, c, NodeV(w.g.edges[c].target.value), owner);
      }
      visited := visited + {c};
      match w.g.edges[c].parent {
      case Bds(p) =>
        ok := ChangeAioContext(p, ctx, hot, skip, root, active + {owner});
      case Backend(b) =>
        if !Accepts(w.backends[b]) {
          if hot {
            BlockedBy(w, skip, root, visited, tran, active + {owner}, b);
          }
          return false;
        }
        if hot {
          TrackedRecord(w, skip, root, visited, tran, active + {owner}, owner);
        }
        tran := [BackendV(b)] + tran;
        ok := true;
      case Job(j) =>
        ok := ChildJobChange(j, ctx, hot, skip, root, active + {owner});
      }
      if ok && hot {
        TrackedReturn(w, skip, root, visited, tran, active, owner);
      }
    }

    /** bdrv_child_change_aio_context. */
    method ChildChange(c: EdgeId, ctx: Context,
                       ghost hot: bool, ghost skip: Option<EdgeId>, ghost root: Vertex, ghost active: set<Vertex>)
      returns (ok: bool)
      requires Searching(hot, skip, root, ctx, active) && c in w.g.edges && w.g.edges[c].target.Some?
      requires Owner(w.g.edges[c]) in active && !w.g.edges[c].parent.Backend?
      modifies this`visited, this`tran
      ensures old(visited) <= visited
      ensures ok ==> Searching(hot, skip, root, ctx, active) && c in visited
      ensures !ok && hot ==> Blocked(w, skip, root)
      decreases Left(), 1
    {
      hide Valid, Tracked, Connected, Blocked;
      if c in visited {
        return true;
      }
      var t := w.g.edges[c].target.value;
      LinkGives(w, c);
      LeftFalls(w.g.edges.Keys, visited, visited + {c});
      if hot {
        TrackedMark(w, skip, root, visited, tran, active, c, Owner(w.g.edges[c]), NodeV(t));
      }
      visited := visited + {c};
      ok := ChangeAioContext(t, ctx, hot, skip, root, active + {NodeV(t)});
      if ok && hot {
        TrackedReturn(w, skip, root, visited, tran, active, NodeV(t));
      }
    }

    /** child_job_change_aio_ctx: all links of the job, then the job itself. */
    method ChildJobChange(j: nat, ctx: Context,
                          ghost hot: bool, ghost skip: Option<EdgeId>, ghost root: Vertex, ghost active: set<Vertex>)
      returns (ok: bool)
      requires Searching(hot, skip, root, ctx, active) && j in w.jobs && JobV(j) in active
      modifies this`visited, this`tran
      ensures old(visited) <= visited
      ensures ok ==> Searching(hot, skip, root, ctx, active)
      ensures ok && hot ==> JobV(j) in tran
      ensures !ok && hot ==> Blocked(w, skip, root)
      decreases Left(), 2
    {
      hide Valid, Tracked, Connected, Blocked;
      for i := 0 to |w.jobs[j]|
        invariant Searching(hot, skip, root, ctx, active) && old(visited) <= visited
        invariant forall k :: 0 <= k < i ==> w.jobs[j][k] in visited
      {
        JobLink(w, j, w.jobs[j][i]);
        LeftFalls(w.g.edges.Keys, old(visited), visited);
        ok := ChildChange(w.jobs[j][i], ctx, hot, skip, root, active);
        if !ok {
          return;
        }
      }
      if hot {
        AllAtJob(w, j, visited);
        TrackedRecord(w, skip, root, visited, tran, active, JobV(j));
      }
      tran := [JobV(j)] + tran;
      ok := true;
    }

    /** bdrv_change_aio_context. */
    method ChangeAioContext(bs: NodeId, ctx: Context,
                            ghost hot: bool, ghost skip: Option<EdgeId>, ghost root: Vertex, ghost active: set<Vertex>)
      returns (ok: bool)
      requires Searching(hot, skip, root, ctx, active) && bs in w.g.nodes && NodeV(bs) in active
      modifies this`visited, this`tran
      ensures old(visited) <= visited
      ensures ok ==> Searching(hot, skip, root, ctx, active)
      ensures ok && hot ==> NodeV(bs) in tran
      ensures !ok && hot ==> Blocked(w, skip, root)
      ensures ctxOf[NodeV(bs)] == ctx ==> ok && tran == old(tran)
      decreases Left(), 2
    {
      hide Valid, Tracked, Connected, Blocked;
      NodeGives(w, bs);
      if ctxOf[NodeV(bs)] == ctx {
        if hot {
          ActiveConnected(w, skip, root, visited, tran, active, NodeV(bs));
        }
        return true;
      }
      for i := 0 to |w.g.parents[bs]|
        invariant Searching(hot, skip, root, ctx, active) && old(visited) <= visited
        invariant forall k :: 0 <= k < i ==> w.g.parents[bs][k] in visited
      {
        ParentLink(w, bs, w.g.parents[bs][i]);
        LeftFalls(w.g.edges.Keys, old(visited), visited);
        ok := ParentChange(w.g.parents[bs][i], ctx, hot, skip, root, active);
        if !ok {
          return;
        }
      }
      for i := 0 to |w.g.children[bs]|
        invariant Searching(hot, skip, root, ctx, active) && old(visited) <= visited
        invariant forall k :: 0 <= k < |w.g.parents[bs]| ==> w.g.parents[bs][k] in visited
        invariant forall k :: 0 <= k < i ==> w.g.children[bs][k] in visited
      {
        ChildLink(w, bs, w.g.children[bs][i]);
        LeftFalls(w.g.edges.Keys, old(visited), visited);
        ok := ChildChange(w.g.children[bs][i], ctx, hot, skip, root, active);
        if !ok {
          return;
        }
      }
      if hot {
        AllAtNode(w, bs, visited);
        TrackedRecord(w, skip, root, visited, tran, active, NodeV(bs));
      }
      tran := [NodeV(bs)] + tran;
      ok := true;
    }

    /** tran_commit: the only place where a context changes. */
    method Commit(ctx: Context)
      requires forall v :: v in tran ==> v in ctxOf
      modifies this`ctxOf, this`tran
      ensures tran == [] && ctxOf.Keys == old(ctxOf.Keys)
      ensures forall v :: v in ctxOf ==> ctxOf[v] == if v in old(tran) then ctx else old(ctxOf[v])
    {
      while tran != []
        invariant ctxOf.Keys == old(ctxOf.Keys) && forall v :: v in tran ==> v in ctxOf && v in old(tran)
        invariant forall v :: v in ctxOf ==> ctxOf[v] == old(ctxOf[v]) || (v in old(tran) && ctxOf[v] == ctx)
        invariant forall v :: v in old(tran) && v !in tran ==> v in ctxOf && ctxOf[v] == ctx
        decreases |tran|
      {
        ctxOf := ctxOf[tran[0] := ctx];
        tran := tran[1..];
      }
    }

    /** bdrv_try_change_aio_context_locked. The call succeeds if and only if `bs` has
        the context already or every connected BlockBackend accepts. It then leaves
        exactly what is connected to `bs` in the new context; when it fails, no
        context has changed. */
    method TryChange(bs: NodeId, ctx: Context, ignoreChild: Option<EdgeId>) returns (ok: bool)
      requires Valid(w) && Placed(w, ctxOf) && Uniform(w, ignoreChild, ctxOf) && bs in w.g.nodes
      modifies this
      ensures ok <==> old(ctxOf)[NodeV(bs)] == ctx || !Blocked(w, ignoreChild, NodeV(bs))
      ensures ctxOf.Keys == old(ctxOf.Keys)
      ensures ok ==> forall v :: v in ctxOf ==>
                       ctxOf[v] == if Connected(w, ignoreChild, NodeV(bs), v) then ctx else old(ctxOf[v])
      ensures !ok ==> ctxOf == old(ctxOf)
      ensures Uniform(w, ignoreChild, ctxOf)
    {
      hide Valid, Tracked, Connected, Blocked, Uniform;
      var root := NodeV(bs);
      tran := [];
      visited := if ignoreChild.Some? then {ignoreChild.value} else {};
      ghost var hot := ctxOf[root] != ctx;
      forall v | Connected(w, ignoreChild, root, v) ensures v in ctxOf && ctxOf[v] == ctxOf[root] {
        ConnectedSameContext(w, ignoreChild, ctxOf, root, v);
      }
      TrackedStart(w, ignoreChild, root, visited);
      ok := ChangeAioContext(bs, ctx, hot, ignoreChild, root, {root});
      if !ok {
        tran := [];
        return;
      }
      if hot {
        TrackedAll(w, ignoreChild, root, visited, tran);
        NotBlocked(w, ignoreChild, root, visited, tran);
      }
      Commit(ctx);
      SwitchedUniform(w, ignoreChild, root, ctx, old(ctxOf), ctxOf);
    }
  }

  // ---------------------------------------------------------------------------
  // Small facts the code uses.

  lemma LinkGives(w: World, e: EdgeId)
    requires Valid(w) && e in w.g.edges
    ensures LinkOk(w, e)
  {
  }

  lemma NodeGives(w: World, n: NodeId)
    requires Valid(w) && n in w.g.nodes
    ensures n in w.g.parents && n in w.g.children
  {
  }

  lemma JobLink(w: World, j: nat, e: EdgeId)
    requires Valid(w) && j in w.jobs && e in w.jobs[j]
    ensures e in w.g.edges && w.g.edges[e].target.Some? && Owner(w.g.edges[e]) == JobV(j)
  {
    assert JobOk(w, j);
    assert LinkOk(w, e);
  }

  lemma ParentLink(w: World, n: NodeId, e: EdgeId)
    requires Valid(w) && n in w.g.nodes && e in w.g.parents[n]
    ensures e in w.g.edges && w.g.edges[e].target == Some(n)
  {
    assert ListsOk(w.g, n);
    assert Points(w.g.edges, e, n);
  }

  lemma ChildLink(w: World, n: NodeId, e: EdgeId)
    requires Valid(w) && n in w.g.nodes && e in w.g.children[n]
    ensures e in w.g.edges && w.g.edges[e].target.Some? && w.g.edges[e].parent == Bds(n)
  {
    assert ListsOk(w.g, n);
    assert ChildOf(w.g.edges, e, n);
  }

  lemma AllAtJob(w: World, j: nat, visited: set<EdgeId>)
    requires Valid(w) && j in w.jobs && forall k :: 0 <= k < |w.jobs[j]| ==> w.jobs[j][k] in visited
    ensures forall e :: At(w, e, JobV(j)) ==> e in visited
  {
    assert JobOk(w, j);
  }

  lemma AllAtNode(w: World, n: NodeId, visited: set<EdgeId>)
    requires Valid(w) && n in w.g.nodes
    requires forall k :: 0 <= k < |w.g.parents[n]| ==> w.g.parents[n][k] in visited
    requires forall k :: 0 <= k < |w.g.children[n]| ==> w.g.children[n][k] in visited
    ensures forall e :: At(w, e, NodeV(n)) ==> e in visited
  {
    assert ListsOk(w.g, n);
    forall e | At(w, e, NodeV(n)) ensures e in visited {
      assert Points(w.g.edges, e, n) || ChildOf(w.g.edges, e, n);
    }
  }

  lemma ActiveConnected(w: World, skip: Option<EdgeId>, root: Vertex, visited: set<EdgeId>, tran: seq<Vertex>,
                        active: set<Vertex>, v: Vertex)
    requires Tracked(w, skip, root, visited, tran, active) && v in active
    ensures Connected(w, skip, root, v)
  {
  }

  lemma BlockedBy(w: World, skip: Option<EdgeId>, root: Vertex, visited: set<EdgeId>, tran: seq<Vertex>,
                  active: set<Vertex>, b: nat)
    requires Tracked(w, skip, root, visited, tran, active) && BackendV(b) in active
    requires b in w.backends && !Accepts(w.backends[b])
    ensures Blocked(w, skip, root)
  {
  }

  lemma TrackedStart(w: World, skip: Option<EdgeId>, root: Vertex, visited: set<EdgeId>)
    requires visited == if skip.Some? then {skip.value} else {}
    ensures Tracked(w, skip, root, visited, [], {root})
  {
    ConnectedSelf(w, skip, root);
  }

  lemma NotBlocked(w: World, skip: Option<EdgeId>, root: Vertex, visited: set<EdgeId>, tran: seq<Vertex>)
    requires Tracked(w, skip, root, visited, tran, {root})
    requires forall v :: v in tran <==> Connected(w, skip, root, v)
    ensures !Blocked(w, skip, root)
  {
  }
}
