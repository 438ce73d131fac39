// The kind-specific transition of stage 14 on a grown lineage: it moves record and lineage
// state, keeps every record, and leaves one live route state.
module Transition {
  import opened Types
  import opened Ordering
  import opened Digraph
  import opened GraphModel
  import opened StoreTypes
  import opened CurrentnessModel
  import opened Requests
  import opened CommitPipeline
  import opened Soundness
  import opened Admission
  import opened Insertions
  import opened Evolution
  import opened Rebinding
  import opened Settlement

  /** A correction does not target a route state of the current generation that a correction has
      replaced already; the program does not look at its marker. */
  ghost predicate NotAlreadyReplaced(lin: Lineage, r: Request) {
    r.kind == CorrectionKind && r.target in lin.graph.nodes ==>
      var t := lin.graph.nodes[r.target];
      t.IsRouteState() && t.core.generation == lin.state.generation ==> t.id == lin.state.currentNode
  }

  /** What a commit has to find for its lineage to keep one live route state. */
  ghost predicate Advances(lin: Lineage, r: Request) {
    && Standing(lin) && NotAlreadyReplaced(lin, r)
    && (r.kind == RouteStateKind ==> lin.state.generation < r.generation)
  }

  ghost function MovedOf(env: Env, lin: Lineage, r: Request, node: Node, edges: seq<Edge>): Moved
  {
    Move(env, Bookkeep(lin.state, r), Inserted(lin, r, node, edges), ReportedEdges(r, edges), r, node)
  }

  lemma GrownIsInserted(env: Env, lin: Lineage, r: Request, node: Node, edges: seq<Edge>)
    ensures r.kind != CorrectionKind ==> Grown(env, lin, r, node, edges) == Inserted(lin, r, node, edges)
  {
    hide Inserted;
  }

  lemma MoveTargetSteady(env: Env, lid: nat, attempts: set<AttemptKey>, st: LineageState, g: Graph, r: Request)
    requires r.kind != CorrectionKind && r.kind != RouteStateKind
    ensures Steady(env, lid, attempts, g, MoveTarget(st, g, r).graph)
  {
    hide Steady, UpdateNodeState, MarkRevalidated;
    SteadySelf(env, lid, attempts, g);
    match r.kind {
      case WithdrawalKind => UpdateSteady(env, lid, attempts, g, r.target, Historical, HistoricalOnly);
      case RevocationKind => UpdateSteady(env, lid, attempts, g, r.target, Revoked, HistoricalOnly);
      case RetirementKind => UpdateSteady(env, lid, attempts, g, r.target, Retired, HistoricalOnly);
      case RevalidationKind => RevalidateSteady(env, lid, attempts, g, r.target);
      case InvalidationKind => UpdateSteady(env, lid, attempts, g, r.target, Invalid, HistoricalOnly);
      case _ =>
    }
  }

  lemma MoveRouteStateSteady(env: Env, lid: nat, attempts: set<AttemptKey>, st: LineageState, g: Graph,
                             edges: seq<Edge>, r: Request, node: Node)
    ensures Steady(env, lid, attempts, g, MoveRouteState(st, g, edges, r, node).graph)
  {
    hide Steady, UpdateNodeState;
    SteadySelf(env, lid, attempts, g);
    UpdateSteady(env, lid, attempts, g, st.currentNode, DisplacedLifecycle(edges, st.currentNode), HistoricalOnly);
  }

  lemma MoveCorrectionSteady(env: Env, lid: nat, attempts: set<AttemptKey>, st: LineageState, h: Graph,
                             r: Request, node: Node, grown: Graph)
    requires RebindsTo(env, h, r, node, grown)
    ensures Steady(env, lid, attempts, grown, MoveCorrection(env, st, h, r, node).graph)
  {
    hide Steady, UpdateNodeState, SetCorrectedBy, RebindAll, EdgesAt;
    CorrectedSteady(env, lid, attempts, grown, r.target, node.id);
    var marked := SetCorrectedBy(grown, r.target, node.id);
    UpdateSteady(env, lid, attempts, marked, r.target, Invalid, HistoricalOnly);
    SteadyTrans(env, lid, attempts, grown, marked, UpdateNodeState(marked, r.target, Invalid, HistoricalOnly, false));
  }

  lemma MoveSteady(env: Env, s: Store, lin: Lineage, lid: nat, r: Request, node: Node, edges: seq<Edge>,
                   attempts: set<AttemptKey>)
    requires Ready(env, s, lin, lid, r, node, edges)
    ensures Steady(env, lid, attempts, Grown(env, lin, r, node, edges), MovedOf(env, lin, r, node, edges).graph)
  {
    hide Ready, Steady, MoveRouteState, MoveCorrection, MoveTarget, Grown, Inserted;
    BatchInserted(env, s, lin, lid, r, node, edges);
    GrownIsInserted(env, lin, r, node, edges);
    var st, g := Bookkeep(lin.state, r), Inserted(lin, r, node, edges);
    if r.kind == RouteStateKind {
      MoveRouteStateSteady(env, lid, attempts, st, g, ReportedEdges(r, edges), r, node);
    } else if r.kind == CorrectionKind {
      CorrectionRebinds(env, s, lin, lid, r, node, edges);
      MoveCorrectionSteady(env, lid, attempts, st, g, r, node, Grown(env, lin, r, node, edges));
    } else {
      MoveTargetSteady(env, lid, attempts, st, g, r);
    }
  }

  // ---------------------------------------------------------------------------------------
  // The settled lineage
  // ---------------------------------------------------------------------------------------

  ghost function InsertionOf(lin: Lineage, r: Request, node: Node, edges: seq<Edge>): Insertion
  {
    Insertion(Inserted(lin, r, node, edges), ReportedOutcome(r), ReportedEdges(r, edges), Ok)
  }

  ghost function Settled(env: Env, s: Store, lin: Lineage, r: Request, node: Node, edges: seq<Edge>): Lineage
  {
    Settle(env, s, lin, r, node, InsertionOf(lin, r, node, edges))
  }

  ghost function PromotedOf(env: Env, lin: Lineage, r: Request, node: Node, edges: seq<Edge>): Graph
  {
    var moved := MovedOf(env, lin, r, node, edges);
    if r.kind == LinkKind then Promote(moved.graph, r.target)
    else PromoteAll(moved.graph, ReportedEdges(r, edges) + moved.edges)
  }

  lemma SettledShape(env: Env, s: Store, lin: Lineage, r: Request, node: Node, edges: seq<Edge>)
    ensures
      var moved := MovedOf(env, lin, r, node, edges);
      var promoted := PromotedOf(env, lin, r, node, edges);
      var settled := Settled(env, s, lin, r, node, edges);
      && settled.state == Counted(moved.state, promoted, env.RequestDigest(r))
      && settled.graph == Refresh(settled.state, promoted, s.marks, s.publishers,
                                  Affected(r, node, ReportedEdges(r, edges), moved))
      && settled.attempts.Keys == Keys14(lin, r)
  {
    hide Move, Refresh, PromoteAll, Promote, Affected, EdgeIds, Inserted, Counted;
  }

  /** Every record the commit found or inserted is kept, with its identity and core. */
  lemma SettledSteady(env: Env, s: Store, lin: Lineage, lid: nat, r: Request, node: Node, edges: seq<Edge>,
                      marked: Store)
    requires Ready(env, s, lin, lid, r, node, edges)
    ensures Steady(env, lid, Keys14(lin, r), Grown(env, lin, r, node, edges),
                   Settled(env, marked, lin, r, node, edges).graph)
    ensures SameRecords(MovedOf(env, lin, r, node, edges).graph, Settled(env, marked, lin, r, node, edges).graph)
  {
    hide Ready, NodesSound, Move, Refresh, PromoteAll, Promote, Affected, Grown, Settle, Succeeds, Inserted, Keys14;
    BatchInserted(env, s, lin, lid, r, node, edges);
    SettledShape(env, marked, lin, r, node, edges);
    var keys := Keys14(lin, r);
    var moved, promoted := MovedOf(env, lin, r, node, edges), PromotedOf(env, lin, r, node, edges);
    var settled := Settled(env, marked, lin, r, node, edges);
    MoveSteady(env, s, lin, lid, r, node, edges, keys);
    if r.kind == LinkKind {
      PromoteSteady(env, lid, keys, moved.graph, r.target);
    } else {
      PromoteAllSteady(env, lid, keys, moved.graph, ReportedEdges(r, edges) + moved.edges);
    }
    RefreshSteady(env, lid, keys, settled.state, promoted, marked.marks, marked.publishers,
                  Affected(r, node, ReportedEdges(r, edges), moved));
    SteadyTrans(env, lid, keys, moved.graph, promoted, settled.graph);
    SteadyTrans(env, lid, keys, Grown(env, lin, r, node, edges), moved.graph, settled.graph);
  }

  lemma SettledGraphSound(env: Env, s: Store, lin: Lineage, lid: nat, r: Request, node: Node, edges: seq<Edge>,
                          marked: Store)
    requires Ready(env, s, lin, lid, r, node, edges)
    ensures GraphSound(env, lid, Keys14(lin, r), Settled(env, marked, lin, r, node, edges).graph)
  {
    hide Ready, NodesSound, IsDag, Grown, Settled, Succeeds, Env.FinalizeEdge, ValidateEdge, Keys14;
    GrownIsSound(env, s, lin, lid, r, node, edges);
    SettledSteady(env, s, lin, lid, r, node, edges, marked);
    SameRecordsKeepDag(Grown(env, lin, r, node, edges), Settled(env, marked, lin, r, node, edges).graph);
  }

  // ---------------------------------------------------------------------------------------
  // Single live route state
  // ---------------------------------------------------------------------------------------

  /** The fields single liveness depends on. */
  ghost predicate SamePosition(a: LineageState, b: LineageState) {
    a.key == b.key && a.generation == b.generation && a.currentNode == b.currentNode
  }

  lemma SingleLiveSteady(st: LineageState, st': LineageState, g: Graph, h: Graph)
    requires SingleLive(st, g) && SameRecords(g, h) && SamePosition(st, st')
    ensures SingleLive(st', h)
  {
    forall id | id in h.nodes ensures RouteStateWithin(st', h.nodes[id]) && Displaced(st', h.nodes[id]) {
      assert Succeeds(g.nodes[id], h.nodes[id]);
      assert RouteStateWithin(st, g.nodes[id]) && Displaced(st, g.nodes[id]);
    }
  }

  lemma SingleLiveWithOther(st: LineageState, g: Graph, n: Node, h: Graph)
    requires SingleLive(st, g) && !n.IsRouteState() && n.id !in g.nodes
    requires h.nodes == g.nodes[n.id := n] || h.nodes == g.nodes
    ensures SingleLive(st, h)
  {
    forall id | id in h.nodes ensures RouteStateWithin(st, h.nodes[id]) && Displaced(st, h.nodes[id]) {
      if id in g.nodes && h.nodes[id] == g.nodes[id] {
        assert RouteStateWithin(st, g.nodes[id]) && Displaced(st, g.nodes[id]);
      }
    }
  }

  lemma SingleLiveAdvanced(st: LineageState, g: Graph, n: Node, h: Graph, st': LineageState)
    requires SingleLive(st, g) && n.IsRouteState() && n.core.generation == st'.generation
    requires st.generation < st'.generation && st'.currentNode == n.id && st'.key == st.key
    requires n.core.route == st.key.route && n.id !in g.nodes && h.nodes == g.nodes[n.id := n]
    ensures SingleLive(st', h)
  {
    forall id | id in h.nodes ensures RouteStateWithin(st', h.nodes[id]) && Displaced(st', h.nodes[id]) {
      if id != n.id {
        assert RouteStateWithin(st, g.nodes[id]);
      }
    }
  }

  /** The graph after a correction: the target is invalid and marked, the rest as before. */
  ghost predicate CorrectedGraph(g: Graph, h: Graph, target: nat, n: Node) {
    && target in g.nodes && target != n.id
    && h.nodes.Keys == g.nodes.Keys + {n.id} && h.nodes[n.id] == n
    && (forall id :: id in g.nodes ==> Succeeds(g.nodes[id], h.nodes[id]))
    && h.nodes[target].lifecycle == Invalid && h.nodes[target].correctedBy.Some?
  }

  lemma SingleLiveCorrected(st: LineageState, g: Graph, target: nat, n: Node, h: Graph, st': LineageState)
    requires WellFormed(g) && SingleLive(st, g) && CorrectedGraph(g, h, target, n)
    requires n.id !in g.nodes && n.id != 0
    requires g.nodes[target].IsRouteState() && g.nodes[target].core.generation == st.generation ==>
               target == st.currentNode
    requires n.core.kind == g.nodes[target].core.kind && n.core.route == g.nodes[target].core.route
    requires n.core.generation == g.nodes[target].core.generation
    requires st'.key == st.key && st'.generation == st.generation
    requires st'.currentNode == if st.currentNode == target then n.id else st.currentNode
    ensures SingleLive(st', h)
  {
    assert RouteStateWithin(st, g.nodes[target]) && Displaced(st, g.nodes[target]);
    forall id | id in h.nodes ensures RouteStateWithin(st', h.nodes[id]) && Displaced(st', h.nodes[id]) {
      if id != n.id {
        assert Succeeds(g.nodes[id], h.nodes[id]);
        assert RouteStateWithin(st, g.nodes[id]) && Displaced(st, g.nodes[id]);
      }
    }
  }
}
