// Successor ancestry: every route state leads back to a root along successor edges of strictly
// falling generation, and a correction hands its replacement the very ancestry of its target.
module Ancestry {
  import opened Types
  import opened Ordering
  import opened Digraph
  import opened GraphModel
  import opened StoreTypes
  import opened CurrentnessModel
  import opened Requests
  import opened CommitPipeline
  import opened Operations
  import opened Soundness
  import opened Admission
  import opened Insertions
  import opened Evolution
  import opened Rebinding
  import opened Settlement
  import opened Transition
  import opened LineageSteps
  import opened CommitSteps
  import opened RegistrySteps
  import opened Progress
  import opened Runs

  // ---------------------------------------------------------------------------------------
  // Reachability when one node copies another's arcs
  // ---------------------------------------------------------------------------------------

  /** The arcs with a new node c that copies the arcs leaving t. */
  ghost function WithCopy(arcs: Arcs, t: nat, c: nat): Arcs {
    arcs + set a | a in arcs && a.0 == t :: (c, a.1)
  }

  lemma {:induction false} OldPathsStay(arcs: Arcs, more: Arcs, c: nat, p: seq<nat>)
    requires IsPath(more, p) && p[0] != c
    requires forall u, v :: (u, v) in more && u != c ==> (u, v) in arcs
    requires forall u, v :: (u, v) in arcs ==> v != c
    ensures IsPath(arcs, p)
    decreases |p|
  {
    if |p| > 1 {
      var q := p[1..];
      assert (p[0], p[0 + 1]) in more;
      forall i | 0 <= i < |q| - 1 ensures (q[i], q[i + 1]) in more {
        assert (p[i + 1], p[i + 1 + 1]) in more;
      }
      OldPathsStay(arcs, more, c, q);
      forall i | 0 <= i < |p| - 1 ensures (p[i], p[i + 1]) in arcs {
        if i > 0 {
          assert (q[i - 1], q[i - 1 + 1]) in arcs;
        }
      }
    }
  }

  lemma OldReachesStays(arcs: Arcs, more: Arcs, c: nat, a: nat, b: nat)
    requires arcs <= more && a != c
    requires forall u, v :: (u, v) in more && u != c ==> (u, v) in arcs
    requires forall u, v :: (u, v) in arcs ==> v != c
    ensures Reaches(more, a, b) <==> Reaches(arcs, a, b)
  {
    if Reaches(more, a, b) {
      var p :| PathBetween(more, p, a, b);
      OldPathsStay(arcs, more, c, p);
      assert PathBetween(arcs, p, a, b);
    }
    if Reaches(arcs, a, b) {
      ReachesMonotone(arcs, more, a, b);
    }
  }

  lemma ReachesByFirstArc(arcs: Arcs, a: nat, b: nat)
    ensures Reaches(arcs, a, b) <==> a == b || exists x :: (a, x) in arcs && Reaches(arcs, x, b)
  {
    if Reaches(arcs, a, b) && a != b {
      var p :| PathBetween(arcs, p, a, b);
      assert (p[0], p[0 + 1]) in arcs;
      var q := p[1..];
      forall i | 0 <= i < |q| - 1 ensures (q[i], q[i + 1]) in arcs {
        assert (p[i + 1], p[i + 1 + 1]) in arcs;
      }
      assert PathBetween(arcs, q, p[1], b);
    }
    if a == b {
      ReachesSelf(arcs, a);
    }
    if x :| (a, x) in arcs && Reaches(arcs, x, b) {
      ReachesArc(arcs, a, x);
      ReachesTrans(arcs, a, x, b);
    }
  }

  /** The copy reaches exactly what the original reaches. */
  lemma CopyReaches(arcs: Arcs, t: nat, c: nat, x: nat)
    requires forall u, v :: (u, v) in arcs ==> u != c && v != c
    requires t != c && x != c && x != t
    ensures Reaches(WithCopy(arcs, t, c), c, x) <==> Reaches(arcs, t, x)
    ensures Reaches(WithCopy(arcs, t, c), t, x) <==> Reaches(arcs, t, x)
  {
    var more := WithCopy(arcs, t, c);
    assert forall u, v :: (u, v) in more && u != c ==> (u, v) in arcs;
    OldReachesStays(arcs, more, c, t, x);
    ReachesByFirstArc(more, c, x);
    ReachesByFirstArc(arcs, t, x);
    forall y ensures (c, y) in more <==> (t, y) in arcs {
      if (t, y) in arcs {
        var a := (t, y);
        assert a in arcs && a.0 == t && (c, a.1) in more;
      }
      if (c, y) in more {
        var a :| a in arcs && a.0 == t && (c, a.1) == (c, y);
        assert a == (t, y);
      }
    }
    forall y | (t, y) in arcs ensures Reaches(more, y, x) <==> Reaches(arcs, y, x) {
      OldReachesStays(arcs, more, c, y, x);
    }
  }

  // ---------------------------------------------------------------------------------------
  // The ancestry of one lineage
  // ---------------------------------------------------------------------------------------

  ghost function SuccessorArcs(g: Graph): Arcs {
    set e | e in g.edges && IsSuccessorRelation(g.edges[e].etype) :: (g.edges[e].from, g.edges[e].to)
  }

  predicate IsRoot(n: Node) {
    n.IsRouteState() && n.core.rootReason.Some?
  }

  ghost predicate RootedAt(g: Graph, id: nat) {
    exists root :: root in g.nodes && IsRoot(g.nodes[root]) && Reaches(SuccessorArcs(g), id, root)
  }

  /** A successor edge leads from a route state to an older one. */
  ghost predicate FallingEdge(g: Graph, e: Edge) {
    IsSuccessorRelation(e.etype) ==>
      && e.from in g.nodes && e.to in g.nodes
      && g.nodes[e.from].IsRouteState() && g.nodes[e.to].IsRouteState()
      && g.nodes[e.to].core.generation < g.nodes[e.from].core.generation
  }

  /** Every route state reaches a root along successor edges, each to an older route state. */
  ghost predicate Rooted(g: Graph) {
    && (forall e :: e in g.edges ==> FallingEdge(g, g.edges[e]))
    && (forall id :: id in g.nodes && g.nodes[id].IsRouteState() ==> RootedAt(g, id))
  }

  lemma SuccessorArcsGrow(g: Graph, h: Graph)
    requires KeepsEdges(g, h)
    ensures SuccessorArcs(g) <= SuccessorArcs(h)
  {
    forall a | a in SuccessorArcs(g) ensures a in SuccessorArcs(h) {
      var e :| e in g.edges && IsSuccessorRelation(g.edges[e].etype) && a == (g.edges[e].from, g.edges[e].to);
      assert h.edges[e] == g.edges[e];
    }
  }

  lemma RootedAtGrows(g: Graph, h: Graph, id: nat)
    requires Extends(g, h) && RootedAt(g, id)
    ensures RootedAt(h, id)
  {
    SuccessorArcsGrow(g, h);
    var root :| root in g.nodes && IsRoot(g.nodes[root]) && Reaches(SuccessorArcs(g), id, root);
    ReachesMonotone(SuccessorArcs(g), SuccessorArcs(h), id, root);
    assert Succeeds(g.nodes[root], h.nodes[root]);
  }

  lemma SameRecordsRooted(g: Graph, h: Graph)
    requires SameRecords(g, h) && Rooted(g)
    ensures Rooted(h)
  {
    SameRecordsExtends(g, h);
    forall id | id in h.nodes && h.nodes[id].IsRouteState() ensures RootedAt(h, id) {
      assert Succeeds(g.nodes[id], h.nodes[id]);
      RootedAtGrows(g, h, id);
    }
    forall e | e in h.edges ensures FallingEdge(h, h.edges[e]) {
      assert FallingEdge(g, g.edges[e]);
    }
  }

  // ---------------------------------------------------------------------------------------
  // New edges
  // ---------------------------------------------------------------------------------------

  lemma ArcsStayInside(g: Graph, u: nat, v: nat)
    requires WellFormed(g) && (u, v) in SuccessorArcs(g)
    ensures u in g.nodes && v in g.nodes
  {
  }

  /** The edge leads from the new record, a route state, to an older one of the graph. */
  predicate FallsFrom(g: Graph, node: Node, e: Edge) {
    && e.from == node.id && node.IsRouteState()
    && e.to in g.nodes && g.nodes[e.to].IsRouteState() && g.nodes[e.to].core.generation < node.core.generation
  }

  /** A successor edge of an admitted batch leaves a new route state. */
  lemma BatchSuccessorFalls(env: Env, s: Store, lin: Lineage, lid: nat, r: Request, node: Node, edges: seq<Edge>,
                            e: Edge)
    requires Admitted(env, s, lin, lid, r, node, edges) && NormalForm(r) && r.kind != LinkKind
    requires e in edges && IsSuccessorRelation(e.etype)
    ensures r.kind == RouteStateKind && FallsFrom(lin.graph, node, e)
  {
    hide StageFreshness, StageLimits, Env.FinalizeEdge, CanonCore;
    var i :| 0 <= i < |edges| && edges[i] == e;
    assert BatchEdge(env, lid, lin.graph, r, node, edges[i]);
  }

  ghost predicate AllFall(g: Graph, edges: seq<Edge>) {
    forall e :: e in edges ==> FallingEdge(g, e)
  }

  lemma LinkFalls(env: Env, s: Store, lin: Lineage, lid: nat, r: Request, node: Node, edges: seq<Edge>)
    requires Admitted(env, s, lin, lid, r, node, edges) && r.kind == LinkKind
    ensures AllFall(lin.graph, edges)
  {
    hide GoodRecord, StageFreshness, StageLimits, Env.FinalizeEdge, BatchEdges;
  }

  /** Every edge the commit adds falls, in the grown graph. */
  lemma NewEdgeFalls(env: Env, s: Store, lin: Lineage, lid: nat, r: Request, node: Node, edges: seq<Edge>, h: Graph,
                     e: Edge)
    requires Ready(env, s, lin, lid, r, node, edges) && Rooted(lin.graph)
    requires h.nodes == if r.kind == LinkKind then lin.graph.nodes else lin.graph.nodes[node.id := node]
    requires e in edges || e in ReboundEdges(env, lin.graph, r, node)
    ensures FallingEdge(h, e)
  {
    hide Ready, Admitted, LineageSound, NormalForm, Rooted, Env.CollisionFree, Room, Rebounds;
    ReadyParts(env, s, lin, lid, r, node, edges);
    if IsSuccessorRelation(e.etype) {
      if r.kind == LinkKind {
        LinkFalls(env, s, lin, lid, r, node, edges);
      } else {
        RecordIdIsValid(env, s, lin, lid, r, node, edges);
        if e in edges {
          BatchSuccessorFalls(env, s, lin, lid, r, node, edges, e);
        } else {
          ReboundFalls(env, s, lin, lid, r, node, edges, e);
        }
      }
    }
  }

  lemma ReboundFalls(env: Env, s: Store, lin: Lineage, lid: nat, r: Request, node: Node, edges: seq<Edge>, b: Edge)
    requires Ready(env, s, lin, lid, r, node, edges) && Rooted(lin.graph) && r.kind == CorrectionKind
    requires b in ReboundEdges(env, lin.graph, r, node)
    ensures FallsFrom(lin.graph, node, b)
  {
    hide Ready, Admitted, LineageSound, NormalForm, Env.CollisionFree, Room, Rebounds, RootedAt, Rebound;
    ReadyParts(env, s, lin, lid, r, node, edges);
    TargetPresent(env, s, lin, lid, r, node, edges);
    ReboundEdgesContents(env, lin.graph, r, node, b);
    var e :| IsReboundOf(env, lin.graph, r, node, e, b);
    ReboundType(env, lin.graph.edges[e], node.id, r.authority);
    assert FallingEdge(lin.graph, lin.graph.edges[e]);
  }

  // ---------------------------------------------------------------------------------------
  // Arcs of the grown graph
  // ---------------------------------------------------------------------------------------

  /** Every edge that was to be inserted is there, up to the fields its identity ignores. */
  lemma InsertedArc(env: Env, s: Store, lin: Lineage, lid: nat, r: Request, node: Node, edges: seq<Edge>, e: Edge)
    requires Ready(env, s, lin, lid, r, node, edges)
    requires e in edges || e in ReboundEdges(env, lin.graph, r, node)
    requires IsSuccessorRelation(e.etype)
    ensures (e.from, e.to) in SuccessorArcs(Grown(env, lin, r, node, edges))
  {
    hide Ready, Admitted, LineageSound, Env.CollisionFree, Room, ReboundEdges, Grown, Env.FinalizeEdge, NodesSound,
      Acyclic, Keys14, ValidateEdge, NormalForm;
    var h := Grown(env, lin, r, node, edges);
    ReadyParts(env, s, lin, lid, r, node, edges);
    GrownHas(env, lin, r, node, edges, e);
    NewEdgeSound(env, s, lin, lid, r, node, edges, e);
    GrownIsSound(env, s, lin, lid, r, node, edges);
    var f := h.edges[e.id];
    assert EdgeSound(env, lid, Keys14(lin, r), f);
    SameEdgeIdSameContent(env, f, e);
    assert CanonEdge(f).from == f.from && CanonEdge(f).to == f.to && CanonEdge(f).etype == f.etype;
    assert CanonEdge(e).from == e.from && CanonEdge(e).to == e.to && CanonEdge(e).etype == e.etype;
  }

  lemma GrownHas(env: Env, lin: Lineage, r: Request, node: Node, edges: seq<Edge>, e: Edge)
    requires e in edges || e in ReboundEdges(env, lin.graph, r, node)
    requires r.kind == LinkKind ==> |edges| == 1
    ensures e.id in Grown(env, lin, r, node, edges).edges
  {
    hide Rebounds, WithEdges;
    var g, rebounds := lin.graph, ReboundEdges(env, lin.graph, r, node);
    WithEdgesContents(g.(nodes := g.nodes[node.id := node]), edges);
    WithEdgesContents(Inserted(lin, r, node, edges), rebounds);
    if e in edges {
      var i :| 0 <= i < |edges| && edges[i] == e;
      assert edges[i].id in Inserted(lin, r, node, edges).edges;
    } else {
      var i :| 0 <= i < |rebounds| && rebounds[i] == e;
      assert rebounds[i].id in Grown(env, lin, r, node, edges).edges;
    }
  }

  // ---------------------------------------------------------------------------------------
  // The replacement's ancestry
  // ---------------------------------------------------------------------------------------

  /** After a correction the successor arcs are those before, with the target's copied to its
      replacement. */
  lemma CorrectionCopiesArcs(env: Env, s: Store, lin: Lineage, lid: nat, r: Request, node: Node, edges: seq<Edge>)
    requires Ready(env, s, lin, lid, r, node, edges) && r.kind == CorrectionKind
    ensures SuccessorArcs(Grown(env, lin, r, node, edges)) == WithCopy(SuccessorArcs(lin.graph), r.target, node.id)
  {
    hide Ready, Admitted, LineageSound, Env.CollisionFree, Room, Rebounds, Grown, EdgeSound, Rebound, NormalForm;
    var g, h := lin.graph, Grown(env, lin, r, node, edges);
    ReadyParts(env, s, lin, lid, r, node, edges);
    GrownContents(env, s, lin, lid, r, node, edges);
    SuccessorArcsGrow(g, h);
    forall a | a in SuccessorArcs(h) ensures a in WithCopy(SuccessorArcs(g), r.target, node.id) {
      var e :| e in h.edges && IsSuccessorRelation(h.edges[e].etype) && a == (h.edges[e].from, h.edges[e].to);
      if e !in g.edges {
        if h.edges[e] in edges {
          BatchSuccessorFalls(env, s, lin, lid, r, node, edges, h.edges[e]);
        }
        ReboundEdgesContents(env, g, r, node, h.edges[e]);
        var f :| IsReboundOf(env, g, r, node, f, h.edges[e]);
        ReboundType(env, g.edges[f], node.id, r.authority);
        assert (r.target, h.edges[e].to) in SuccessorArcs(g);
      }
    }
    forall a | a in WithCopy(SuccessorArcs(g), r.target, node.id) ensures a in SuccessorArcs(h) {
      if a !in SuccessorArcs(g) {
        var b :| b in SuccessorArcs(g) && b.0 == r.target && a == (node.id, b.1);
        CopiedArc(env, s, lin, lid, r, node, edges, b.1);
      }
    }
  }

  /** A successor edge of the target is re-bound. */
  lemma CopiedArc(env: Env, s: Store, lin: Lineage, lid: nat, r: Request, node: Node, edges: seq<Edge>, x: nat)
    requires Ready(env, s, lin, lid, r, node, edges) && r.kind == CorrectionKind
    requires (r.target, x) in SuccessorArcs(lin.graph)
    ensures (node.id, x) in SuccessorArcs(Grown(env, lin, r, node, edges))
  {
    hide Ready, Grown, ReboundEdges, Rebound;
    var g := lin.graph;
    var e :| e in g.edges && IsSuccessorRelation(g.edges[e].etype) && (r.target, x) == (g.edges[e].from, g.edges[e].to);
    var b := Rebound(env, g.edges[e], node.id, r.authority);
    ReboundType(env, g.edges[e], node.id, r.authority);
    assert IsReboundOf(env, g, r, node, e, b);
    ReboundEdgesContents(env, g, r, node, b);
    InsertedArc(env, s, lin, lid, r, node, edges, b);
  }

  /** A correction preserves ancestry: the replacement reaches by successor edges exactly the
      records the corrected one reaches, before and after. */
  lemma ReplacementReachesTheSame(env: Env, s: Store, lin: Lineage, lid: nat, r: Request, node: Node, edges: seq<Edge>,
                                  marked: Store, x: nat)
    requires Ready(env, s, lin, lid, r, node, edges) && r.kind == CorrectionKind
    requires x != node.id && x != r.target
    ensures
      var before := SuccessorArcs(lin.graph);
      var after := SuccessorArcs(Settled(env, marked, lin, r, node, edges).graph);
      && (Reaches(after, node.id, x) <==> Reaches(before, r.target, x))
      && (Reaches(after, r.target, x) <==> Reaches(before, r.target, x))
  {
    hide Ready, Admitted, LineageSound, Env.CollisionFree, Room, Grown, Settled, WithCopy, Reaches, NodesSound,
      Succeeds, MovedOf;
    var g := lin.graph;
    ReadyParts(env, s, lin, lid, r, node, edges);
    RecordIdIsValid(env, s, lin, lid, r, node, edges);
    CorrectionGrown(env, s, lin, lid, r, node, edges);
    CorrectionCopiesArcs(env, s, lin, lid, r, node, edges);
    SettledSteady(env, s, lin, lid, r, node, edges, marked);
    SoundIsWellFormed(env, lid, lin);
    forall u, v | (u, v) in SuccessorArcs(g) ensures u != node.id && v != node.id {
      ArcsStayInside(g, u, v);
    }
    CopyReaches(SuccessorArcs(g), r.target, node.id, x);
    SameSuccessorArcs(Grown(env, lin, r, node, edges), Settled(env, marked, lin, r, node, edges).graph);
  }

  lemma SameSuccessorArcs(g: Graph, h: Graph)
    requires g.edges == h.edges
    ensures SuccessorArcs(g) == SuccessorArcs(h)
  {
  }

  // ---------------------------------------------------------------------------------------
  // Rootedness of the new record
  // ---------------------------------------------------------------------------------------

  /** A publication without a root reason names what it succeeds. The program accepts any edge. */
  predicate CarriesSuccessor(r: Request) {
    r.kind == RouteStateKind && r.rootReason.None? ==>
      exists i :: 0 <= i < |r.edges| && IsSuccessorRelation(r.edges[i].etype)
  }

  lemma RootedBy(h: Graph, id: nat, x: nat)
    requires (id, x) in SuccessorArcs(h) && RootedAt(h, x)
    ensures RootedAt(h, id)
  {
    var root :| root in h.nodes && IsRoot(h.nodes[root]) && Reaches(SuccessorArcs(h), x, root);
    ReachesArc(SuccessorArcs(h), id, x);
    ReachesTrans(SuccessorArcs(h), id, x, root);
  }

  lemma RootedThroughFirst(g: Graph, t: nat)
    requires RootedAt(g, t) && t in g.nodes && !IsRoot(g.nodes[t])
    ensures exists x :: (t, x) in SuccessorArcs(g) && RootedAt(g, x)
  {
    hide SuccessorArcs, Reaches;
    var root :| root in g.nodes && IsRoot(g.nodes[root]) && Reaches(SuccessorArcs(g), t, root);
    ReachesByFirstArc(SuccessorArcs(g), t, root);
  }

  lemma RootIsRooted(h: Graph, id: nat)
    requires id in h.nodes && IsRoot(h.nodes[id])
    ensures RootedAt(h, id)
  {
    ReachesSelf(SuccessorArcs(h), id);
  }

  /** The grown graph extends the old one by at most the new record. */
  ghost predicate GrownTo(env: Env, lin: Lineage, r: Request, node: Node, edges: seq<Edge>, h: Graph) {
    && h == Grown(env, lin, r, node, edges) && Extends(lin.graph, h)
    && (r.kind != LinkKind ==> h.nodes == lin.graph.nodes[node.id := node])
  }

  lemma PublishedIsRooted(env: Env, s: Store, lin: Lineage, lid: nat, r: Request, node: Node, edges: seq<Edge>,
                          h: Graph)
    requires Ready(env, s, lin, lid, r, node, edges) && r.kind == RouteStateKind && CarriesSuccessor(r)
    requires GrownTo(env, lin, r, node, edges, h) && Rooted(lin.graph)
    ensures RootedAt(h, node.id)
  {
    hide Ready, Admitted, LineageSound, Env.CollisionFree, Room, Grown, RootedAt, NormalForm, Extends, FallingEdge,
      SuccessorArcs;
    ReadyParts(env, s, lin, lid, r, node, edges);
    RecordBasics(env, s, lin, lid, r, node, edges);
    if r.rootReason.Some? {
      RootIsRooted(h, node.id);
    } else {
      var i :| 0 <= i < |r.edges| && IsSuccessorRelation(r.edges[i].etype);
      var e := SpecEdge(env, s, lin, lid, r, node, edges, i);
      BatchSuccessorFalls(env, s, lin, lid, r, node, edges, e);
      InsertedArc(env, s, lin, lid, r, node, edges, e);
      RootedAtGrows(lin.graph, h, e.to);
      RootedBy(h, node.id, e.to);
    }
  }

  lemma SpecEdge(env: Env, s: Store, lin: Lineage, lid: nat, r: Request, node: Node, edges: seq<Edge>, i: nat)
    returns (e: Edge)
    requires Admitted(env, s, lin, lid, r, node, edges) && r.kind != LinkKind
    requires i < |r.edges| && IsSuccessorRelation(r.edges[i].etype)
    ensures e in edges && IsSuccessorRelation(e.etype)
  {
    hide GoodRecord, BatchEdges, StageFreshness, StageLimits;
    e := edges[i];
  }

  lemma CorrectedIsRooted(env: Env, s: Store, lin: Lineage, lid: nat, r: Request, node: Node, edges: seq<Edge>,
                          h: Graph)
    requires Ready(env, s, lin, lid, r, node, edges) && r.kind == CorrectionKind && node.IsRouteState()
    requires GrownTo(env, lin, r, node, edges, h) && Rooted(lin.graph)
    ensures RootedAt(h, node.id)
  {
    hide Ready, Admitted, LineageSound, Env.CollisionFree, Room, Grown, NormalForm, Extends, FallingEdge,
      SuccessorArcs, RootedAt;
    ReadyParts(env, s, lin, lid, r, node, edges);
    TargetPresent(env, s, lin, lid, r, node, edges);
    var g, t := lin.graph, r.target;
    if node.core.rootReason.Some? {
      RootIsRooted(h, node.id);
    } else {
      RootedThroughFirst(g, t);
      var x :| (t, x) in SuccessorArcs(g) && RootedAt(g, x);
      RootedAtGrows(g, h, x);
      CopiedArc(env, s, lin, lid, r, node, edges, x);
      RootedBy(h, node.id, x);
    }
  }

  lemma GrownExtends(env: Env, s: Store, lin: Lineage, lid: nat, r: Request, node: Node, edges: seq<Edge>)
    requires Ready(env, s, lin, lid, r, node, edges)
    ensures GrownTo(env, lin, r, node, edges, Grown(env, lin, r, node, edges))
  {
    hide Ready, Grown, NewEdge, Succeeds, Admitted, LineageSound, Env.CollisionFree, Room, NormalForm;
    GrownContents(env, s, lin, lid, r, node, edges);
    ReadyParts(env, s, lin, lid, r, node, edges);
    if r.kind != LinkKind {
      RecordIdIsValid(env, s, lin, lid, r, node, edges);
    }
    forall id | id in lin.graph.nodes ensures Succeeds(lin.graph.nodes[id], lin.graph.nodes[id]) {
      SucceedsSelf(lin.graph.nodes[id]);
    }
  }

  ghost predicate RootedIfRouteState(g: Graph, id: nat) {
    id in g.nodes && g.nodes[id].IsRouteState() ==> RootedAt(g, id)
  }

  lemma GrownRootedAt(env: Env, s: Store, lin: Lineage, lid: nat, r: Request, node: Node, edges: seq<Edge>, id: nat)
    requires Ready(env, s, lin, lid, r, node, edges) && Rooted(lin.graph) && CarriesSuccessor(r)
    ensures RootedIfRouteState(Grown(env, lin, r, node, edges), id)
  {
    hide Ready, Admitted, LineageSound, Env.CollisionFree, Room, Grown, RootedAt, NormalForm, FallingEdge,
      CarriesSuccessor, NewEdge, Extends;
    var g, h := lin.graph, Grown(env, lin, r, node, edges);
    ReadyParts(env, s, lin, lid, r, node, edges);
    GrownContents(env, s, lin, lid, r, node, edges);
    GrownExtends(env, s, lin, lid, r, node, edges);
    if id in h.nodes && h.nodes[id].IsRouteState() {
      if r.kind != LinkKind && id == node.id {
        NewRecordKind(env, s, lin, lid, r, node, edges);
        if r.kind == RouteStateKind {
          PublishedIsRooted(env, s, lin, lid, r, node, edges, h);
        } else {
          CorrectedIsRooted(env, s, lin, lid, r, node, edges, h);
        }
      } else {
        RootedAtGrows(g, h, id);
      }
    }
  }

  lemma GrownRooted(env: Env, s: Store, lin: Lineage, lid: nat, r: Request, node: Node, edges: seq<Edge>)
    requires Ready(env, s, lin, lid, r, node, edges) && Rooted(lin.graph) && CarriesSuccessor(r)
    ensures Rooted(Grown(env, lin, r, node, edges))
  {
    hide Ready, Grown, RootedAt, CarriesSuccessor, EdgeSound, LineageSound, Admitted, Env.CollisionFree, Room,
      NormalForm;
    var g, h := lin.graph, Grown(env, lin, r, node, edges);
    GrownContents(env, s, lin, lid, r, node, edges);
    ReadyParts(env, s, lin, lid, r, node, edges);
    if r.kind != LinkKind {
      RecordIdIsValid(env, s, lin, lid, r, node, edges);
    }
    forall e | e in h.edges ensures FallingEdge(h, h.edges[e]) {
      if e in g.edges {
        assert FallingEdge(g, g.edges[e]);
      } else {
        NewEdgeFalls(env, s, lin, lid, r, node, edges, h, h.edges[e]);
      }
    }
    forall id | id in h.nodes && h.nodes[id].IsRouteState() ensures RootedAt(h, id) {
      GrownRootedAt(env, s, lin, lid, r, node, edges, id);
      assert RootedIfRouteState(h, id);
    }
  }

  // ---------------------------------------------------------------------------------------
  // Runs
  // ---------------------------------------------------------------------------------------

  ghost predicate AllRooted(s: Store) {
    forall lid :: lid in s.lineages ==> Rooted(s.lineages[lid].graph)
  }

  lemma EmptyRooted()
    ensures Rooted(EMPTY_GRAPH)
  {
  }

  lemma AppliedRooted(env: Env, s: Store, lid: nat, r: Request, node: Node, edges: seq<Edge>)
    requires lid in s.lineages && Ready(env, s, LineageAt(s, lid), lid, r, node, edges)
    requires AllRooted(s) && CarriesSuccessor(r)
    ensures AllRooted(Applied(env, s, lid, r, node, edges))
  {
    hide Ready, Settled, Rooted, IndexNode, Grown, CarriesSuccessor, SameRecords, NodesSound, MovedOf;
    var lin := LineageAt(s, lid);
    GrownRooted(env, s, lin, lid, r, node, edges);
    SettledSteady(env, s, lin, lid, r, node, edges, Marked(s));
    SameRecordsRooted(Grown(env, lin, r, node, edges), Settled(env, Marked(s), lin, r, node, edges).graph);
  }

  lemma AcquiredRooted(env: Env, s: Store, r: Request)
    requires AllRooted(s)
    ensures AllRooted(Acquired(env, s, r))
  {
    hide Rooted;
    EmptyRooted();
  }

  lemma CommitRooted(env: Env, s: Store, r: Request)
    requires env.CollisionFree() && Sound(env, s) && NormalForm(r) && AllowedCommit(env, s, r)
    requires AllRooted(s) && CarriesSuccessor(r)
    ensures AllRooted(Commit(env, s, r).store)
  {
    hide Sound, NormalForm, AllowedCommit, Commit, Acquired, Acquire, Authorize, Decision, Applied, Ready, AllRooted,
      Env.CollisionFree, CarriesSuccessor;
    CommitCases(env, s, r);
    AcquiredRooted(env, s, r);
    if Proceeds(env, s, r) {
      var node, edges := ProceedsIsPrepared(env, s, r);
      AppliedRooted(env, Acquired(env, s, r), env.lineageIdOf(r.key), r, node, edges);
    }
  }

  /** No compaction, and every publication without a root reason names what it succeeds. */
  ghost predicate KeepsAncestry(env: Env, op: Op) {
    !op.CompactOp? &&
    match RequestOf(env, op)
    case Some(r) => CarriesSuccessor(r)
    case None => true
  }

  ghost predicate AllKeepAncestry(env: Env, ops: seq<Op>) {
    forall op :: op in ops ==> KeepsAncestry(env, op)
  }

  lemma RefreshedRooted(env: Env, s: Store, s': Store)
    requires LineagesRefreshed(s, s') && AllRooted(s)
    ensures AllRooted(s')
  {
    hide Rooted, Refreshed, RefreshOwned, SameRecords;
    if s'.lineages != s.lineages {
      var t: Store, ids: set<nat> :| t.lineages == s.lineages && s' == RefreshOwned(t, ids);
      RefreshOwnedAt(t, ids);
      forall lid | lid in s'.lineages ensures Rooted(s'.lineages[lid].graph) {
        RefreshedFrame(t, ids, lid);
        SameRecordsRooted(s.lineages[lid].graph, s'.lineages[lid].graph);
      }
    }
  }

  lemma StepRooted(env: Env, s: Store, op: Op)
    requires env.CollisionFree() && Sound(env, s) && RespectsAll(env, s, op, {Fits})
    requires AllRooted(s) && KeepsAncestry(env, op)
    ensures AllRooted(Step(env, s, op))
  {
    hide Sound, Env.CollisionFree, Register, Fence, Notify, Publish, PublishSession, Commit, Compact, RespectsAll,
      AllRooted, LineagesRefreshed, CarriesSuccessor, MarksRise, RequestOf, NormalForm, AllowedCommit;
    match op {
      case RegisterOp(p, b, e, scope) =>
        RegisterRefreshes(env, s, p, b, e, scope);
        RefreshedRooted(env, s, Step(env, s, op));
      case FenceOp(p, b, a) =>
        FenceRefreshes(s, p, b, a);
        RefreshedRooted(env, s, Step(env, s, op));
      case NotifyOp(n, a) =>
        NotifyRefreshes(s, n, a);
        RefreshedRooted(env, s, Step(env, s, op));
      case CompactOp(_, _, _) =>
      case _ =>
        PublicationFits(env, s, op, {Fits});
        if Step(env, s, op) != s {
          assert RespectsCommit(env, s, RequestOf(env, op).value, Fits);
          CommitRooted(env, s, RequestOf(env, op).value);
        }
    }
  }

  lemma {:induction false} RunRooted(env: Env, s: Store, ops: seq<Op>)
    requires env.CollisionFree() && Sound(env, s) && Obeys(env, s, ops, {Fits}) && AllRooted(s)
    requires AllKeepAncestry(env, ops)
    ensures AllRooted(Run(env, s, ops))
    decreases |ops|
  {
    hide Sound, Env.CollisionFree, RespectsAll, Step, AllRooted, KeepsAncestry;
    if ops != [] {
      StepKeepsSound(env, s, ops[0]);
      StepRooted(env, s, ops[0]);
      RunRooted(env, Step(env, s, ops[0]), ops[1..]);
    }
  }

  /** Rooted ancestry. Without compaction, and when every publication that is not a root names
      what it succeeds, every route state of every reached lineage reaches a root along successor
      edges, and every such edge leads to an older route state. */
  lemma RootedAncestry(env: Env, ops: seq<Op>)
    requires env.CollisionFree() && Obeys(env, EMPTY_STORE, ops, {Fits}) && AllKeepAncestry(env, ops)
    ensures AllRooted(Run(env, EMPTY_STORE, ops))
  {
    hide Sound, Placed, CacheAgrees, AllTracked, Env.CollisionFree, Run, Obeys, AllKeepAncestry, Rooted;
    EmptyIsSound(env, EMPTY_STORE);
    RunRooted(env, EMPTY_STORE, ops);
  }
}
