// What an accepted change does to one lineage, for every caller: records and edges are only
// added, through the checks of add_node and add_edge, so the graph stays a DAG within its bounds.
module Growth {
  import opened Types
  import opened Ordering
  import opened Digraph
  import opened GraphModel
  import opened StoreTypes
  import opened CurrentnessModel
  import opened CommitPipeline
  import opened Soundness
  import opened Insertions
  import opened Evolution
  import opened Rebinding
  import opened Settlement
  import opened Transition

  ghost predicate WithinDegrees(g: Graph, limits: Limits) {
    && (forall n :: n in g.nodes ==> |EdgesAt(g, Incoming, n)| <= limits.maxParents)
    && (forall n :: n in g.nodes ==> |EdgesAt(g, Outgoing, n)| <= limits.maxChildren)
  }

  ghost predicate Sized(g: Graph, limits: Limits) {
    |g.nodes| <= limits.maxNodes && |g.edges| <= limits.maxEdges && WithinDegrees(g, limits)
  }

  /** Everything is kept, and what was consistent, acyclic or within the bounds still is. */
  ghost predicate Grows(g: Graph, h: Graph, limits: Limits) {
    && Extends(g, h)
    && (WellFormed(g) ==> WellFormed(h))
    && (IsDag(g) ==> IsDag(h))
    && (WellFormed(g) && Sized(g, limits) ==> Sized(h, limits))
  }

  lemma GrowsSelf(g: Graph, limits: Limits)
    ensures Grows(g, g, limits)
  {
    hide WellFormed, Acyclic, Sized;
    ExtendsSelf(g);
  }

  lemma GrowsTrans(f: Graph, g: Graph, h: Graph, limits: Limits)
    requires Grows(f, g, limits) && Grows(g, h, limits)
    ensures Grows(f, h, limits)
  {
    hide Extends, WellFormed, Acyclic, Sized;
    ExtendsTrans(f, g, h);
  }

  lemma SameRecordsWithin(g: Graph, h: Graph, limits: Limits)
    requires SameRecords(g, h) && WithinDegrees(g, limits)
    ensures WithinDegrees(h, limits)
  {
    forall n, d ensures EdgesAt(h, d, n) == EdgesAt(g, d, n) {
    }
  }

  lemma SameRecordsGrow(g: Graph, h: Graph, limits: Limits)
    requires SameRecords(g, h)
    ensures Grows(g, h, limits)
  {
    hide Acyclic, WithinDegrees;
    SameRecordsExtends(g, h);
    assert |h.nodes.Keys| == |g.nodes.Keys|;
    if IsDag(g) {
      SameRecordsKeepDag(g, h);
    }
    if WithinDegrees(g, limits) {
      SameRecordsWithin(g, h, limits);
    }
  }

  // ---------------------------------------------------------------------------------------
  // The two additions
  // ---------------------------------------------------------------------------------------

  lemma FreshNodeDegrees(g: Graph, n: Node, limits: Limits)
    requires WellFormed(g) && WithinDegrees(g, limits) && n.id !in g.nodes
    ensures WithinDegrees(g.(nodes := g.nodes[n.id := n]), limits)
  {
    var h := g.(nodes := g.nodes[n.id := n]);
    forall k, d ensures EdgesAt(h, d, k) == EdgesAt(g, d, k) {
    }
    assert EdgesAt(g, Incoming, n.id) == {} && EdgesAt(g, Outgoing, n.id) == {};
  }

  lemma NodeGrows(g: Graph, n: Node, limits: Limits)
    ensures Grows(g, AddNode(g, n, limits), limits)
  {
    hide Acyclic, WithinDegrees, CanonCore, ValidateNode;
    if IsDag(g) {
      AddNodeKeepsDag(g, n, limits);
    }
    if AddNodeOutcome(g, n, limits) == Ok && WellFormed(g) && WithinDegrees(g, limits) {
      FreshNodeDegrees(g, n, limits);
    }
  }

  lemma EdgeDegrees(g: Graph, e: Edge, limits: Limits)
    requires WithinDegrees(g, limits) && AddEdgeOutcome(g, e, limits) == Ok
    ensures WithinDegrees(WithEdge(g, e), limits)
  {
    hide ValidateEdge, CheckAddEdge, EdgesAt;
    forall n | n in g.nodes
      ensures |EdgesAt(WithEdge(g, e), Incoming, n)| <= limits.maxParents
      ensures |EdgesAt(WithEdge(g, e), Outgoing, n)| <= limits.maxChildren
    {
      DegreeWithEdge(g, Incoming, e, n);
      DegreeWithEdge(g, Outgoing, e, n);
    }
  }

  lemma EdgeExtends(g: Graph, e: Edge, limits: Limits)
    ensures Extends(g, AddEdge(g, e, limits))
    ensures WellFormed(g) ==> WellFormed(AddEdge(g, e, limits))
    ensures AddEdgeOutcome(g, e, limits) == Ok ==>
              e.id !in g.edges && |WithEdge(g, e).edges| == |g.edges| + 1 <= limits.maxEdges
  {
    hide ValidateEdge, CheckAddEdge, EdgesAt;
  }

  lemma EdgeGrows(g: Graph, e: Edge, limits: Limits)
    ensures Grows(g, AddEdge(g, e, limits), limits)
    ensures AddEdgeOutcome(g, e, limits) == Ok ==>
              e.id !in g.edges && |WithEdge(g, e).edges| == |g.edges| + 1 <= limits.maxEdges
  {
    hide WellFormed, Acyclic, WithinDegrees, AddEdgeOutcome, Extends;
    EdgeExtends(g, e, limits);
    GrowsSelf(g, limits);
    if IsDag(g) {
      AddEdgeKeepsDag(g, e, limits);
    }
    if AddEdgeOutcome(g, e, limits) == Ok && WithinDegrees(g, limits) {
      EdgeDegrees(g, e, limits);
    }
  }

  // ---------------------------------------------------------------------------------------
  // The batch
  // ---------------------------------------------------------------------------------------

  lemma {:induction false} InsertEdgesGrow(g: Graph, edges: seq<Edge>, limits: Limits, outcome: Outcome)
    ensures
      var ins := InsertEdges(g, edges, limits, outcome);
      && Grows(g, ins.graph, limits)
      && (ins.refused == Ok && edges != [] ==> ins.graph.edges != map[])
    decreases |edges|
  {
    hide Grows, AddEdgeOutcome, WithEdge;
    GrowsSelf(g, limits);
    if edges != [] {
      var e := edges[0];
      var next := AddEdge(g, e, limits);
      EdgeGrows(g, e, limits);
      var outcome' := if AddEdgeOutcome(g, e, limits) == Ok && outcome == Duplicate then Linked else outcome;
      InsertEdgesGrow(next, edges[1..], limits, outcome');
      var ins := InsertEdges(next, edges[1..], limits, outcome');
      GrowsTrans(g, next, ins.graph, limits);
      if AddEdgeOutcome(g, e, limits) == Ok || AddEdgeOutcome(g, e, limits) == Duplicate {
        HasEdge(g, e, limits);
        KeptEdge(next, ins.graph, e.id, limits);
      }
    }
  }

  lemma HasEdge(g: Graph, e: Edge, limits: Limits)
    requires AddEdgeOutcome(g, e, limits) == Ok || AddEdgeOutcome(g, e, limits) == Duplicate
    ensures e.id in AddEdge(g, e, limits).edges
  {
    hide EdgeArcs, Reaches, EdgesAt;
  }

  lemma KeptEdge(g: Graph, h: Graph, e: nat, limits: Limits)
    requires Grows(g, h, limits) && e in g.edges
    ensures e in h.edges
  {
    hide WellFormed, Acyclic, Sized;
  }

  lemma InsertBatchGrows(g: Graph, r: Request, node: Node, edges: seq<Edge>, limits: Limits)
    requires r.kind == LinkKind ==> |edges| == 1
    ensures
      var ins := InsertBatch(g, r, node, edges, limits);
      && Grows(g, ins.graph, limits)
      && (ins.refused == Ok ==> ins.edges == ReportedEdges(r, edges))
      && (ins.refused == Ok && r.kind != LinkKind && edges != [] ==> ins.graph.edges != map[])
  {
    hide Grows, AddEdgeOutcome, AddNodeOutcome;
    GrowsSelf(g, limits);
    if r.kind == LinkKind {
      EdgeGrows(g, edges[0], limits);
    } else {
      var base, o := AddNode(g, node, limits), AddNodeOutcome(g, node, limits);
      var outcome := if o == Duplicate then Duplicate else Created;
      NodeGrows(g, node, limits);
      InsertEdgesGrow(base, edges, limits, outcome);
      GrowsTrans(g, base, InsertEdges(base, edges, limits, outcome).graph, limits);
    }
  }

  // ---------------------------------------------------------------------------------------
  // The transition
  // ---------------------------------------------------------------------------------------

  /** The edges a transition reports are the ones it added, within the edge bound. */
  ghost predicate Adds(g: Graph, h: Graph, edges: seq<Edge>, limits: Limits) {
    && Grows(g, h, limits) && |h.edges| == |g.edges| + |edges|
    && (edges != [] ==> |h.edges| <= limits.maxEdges)
  }

  lemma {:induction false} RebindAllAdds(env: Env, original: Graph, g: Graph, ids: seq<nat>, from: nat,
                                         authority: Authority)
    ensures
      var rebound := RebindAll(env, original, g, ids, from, authority);
      Adds(g, rebound.graph, rebound.edges, env.limits)
    decreases |ids|
  {
    hide Grows, AddEdgeOutcome, Rebound;
    if ids == [] {
      GrowsSelf(g, env.limits);
    } else if ids[0] !in original.edges {
      RebindAllAdds(env, original, g, ids[1..], from, authority);
    } else {
      var rebound := Rebound(env, original.edges[ids[0]], from, authority);
      EdgeGrows(g, rebound, env.limits);
      if IsSuccessorRelation(original.edges[ids[0]].etype) && AddEdgeOutcome(g, rebound, env.limits) == Ok {
        var next := WithEdge(g, rebound);
        RebindAllAdds(env, original, next, ids[1..], from, authority);
        GrowsTrans(g, next, RebindAll(env, original, next, ids[1..], from, authority).graph, env.limits);
      } else {
        RebindAllAdds(env, original, g, ids[1..], from, authority);
      }
    }
  }

  lemma SteadyGrows(env: Env, g: Graph, h: Graph, limits: Limits)
    requires Steady(env, 0, {}, g, h)
    ensures Grows(g, h, limits) && h.edges == g.edges
  {
    hide Grows, NodesSound, Succeeds;
    SameRecordsGrow(g, h, limits);
  }

  lemma MoveCorrectionAdds(env: Env, st: LineageState, g: Graph, r: Request, node: Node)
    ensures
      var moved := MoveCorrection(env, st, g, r, node);
      Adds(g, moved.graph, moved.edges, env.limits)
  {
    hide Grows, UpdateNodeState, SetCorrectedBy, RebindAll, EdgesAt, Steady, Sorted;
    var ids := Sorted(EdgesAt(g, Outgoing, r.target));
    RebindAllAdds(env, g, g, ids, node.id, r.authority);
    var h := RebindAll(env, g, g, ids, node.id, r.authority).graph;
    var marked := SetCorrectedBy(h, r.target, node.id);
    var moved := UpdateNodeState(marked, r.target, Invalid, HistoricalOnly, false);
    CorrectedSteady(env, 0, {}, h, r.target, node.id);
    UpdateSteady(env, 0, {}, marked, r.target, Invalid, HistoricalOnly);
    SteadyGrows(env, h, marked, env.limits);
    SteadyGrows(env, marked, moved, env.limits);
    GrowsTrans(h, marked, moved, env.limits);
    GrowsTrans(g, h, moved, env.limits);
  }

  lemma MoveAdds(env: Env, st: LineageState, g: Graph, edges: seq<Edge>, r: Request, node: Node)
    ensures
      var moved := Move(env, st, g, edges, r, node);
      && Adds(g, moved.graph, moved.edges, env.limits)
      && (r.kind != CorrectionKind ==> moved.edges == [])
  {
    hide Grows, Steady, MoveCorrection, UpdateNodeState, MarkRevalidated, DisplacedLifecycle;
    if r.kind == RouteStateKind {
      MoveRouteStateSteady(env, 0, {}, st, g, edges, r, node);
      SteadyGrows(env, g, MoveRouteState(st, g, edges, r, node).graph, env.limits);
    } else if r.kind == CorrectionKind {
      MoveCorrectionAdds(env, st, g, r, node);
    } else {
      MoveTargetSteady(env, 0, {}, st, g, r);
      SteadyGrows(env, g, MoveTarget(st, g, r).graph, env.limits);
    }
  }

  /** How far a transition moves the lineage. */
  lemma MoveKeepsPlace(env: Env, st: LineageState, g: Graph, edges: seq<Edge>, r: Request, node: Node)
    ensures
      var st' := Move(env, st, g, edges, r, node).state;
      && st'.id == st.id && st'.key == st.key && st'.lineageGeneration == st.lineageGeneration
      && st'.generation == if r.kind == RouteStateKind then r.generation else st.generation
  {
    hide UpdateNodeState, MarkRevalidated, DisplacedLifecycle, RebindAll, SetCorrectedBy, EdgesAt;
  }

  // ---------------------------------------------------------------------------------------
  // The accepted change
  // ---------------------------------------------------------------------------------------

  /** The accepted change of a lineage, from the inserted batch on: what it keeps and records. */
  ghost predicate SettledWell(env: Env, lin: Lineage, r: Request, ins: Insertion, settled: Lineage) {
    var key := AttemptKeyOf(r.authority);
    && Grows(ins.graph, settled.graph, env.limits)
    && settled.state.id == lin.state.id && settled.state.key == lin.state.key
    && settled.state.lineageGeneration >= lin.state.lineageGeneration
    && settled.state.generation == (if r.kind == RouteStateKind then r.generation else lin.state.generation)
    && key in settled.attempts && settled.attempts == lin.attempts[key := settled.attempts[key]]
    && settled.attempts[key].request == env.RequestDigest(r)
    && |settled.graph.edges| == |ins.graph.edges| + |settled.attempts[key].edges| - |ins.edges|
    && (r.kind != CorrectionKind ==> settled.attempts[key].edges == EdgeIds(ins.edges))
    && (|settled.attempts[key].edges| > |ins.edges| ==> |settled.graph.edges| <= env.limits.maxEdges)
  }

  lemma SettleIsWell(env: Env, s: Store, lin: Lineage, r: Request, node: Node, ins: Insertion)
    ensures SettledWell(env, lin, r, ins, Settle(env, s, lin, r, node, ins))
  {
    hide Grows, Steady, Move, Promote, PromoteAll, Refresh, Affected, Env.RequestDigest, HistoryRecords, EdgeIds;
    var st := Bookkeep(lin.state, r);
    var moved := Move(env, st, ins.graph, ins.edges, r, node);
    MoveAdds(env, st, ins.graph, ins.edges, r, node);
    MoveKeepsPlace(env, st, ins.graph, ins.edges, r, node);
    var edges := ins.edges + moved.edges;
    var promoted := if r.kind == LinkKind then Promote(moved.graph, r.target) else PromoteAll(moved.graph, edges);
    PromoteSteady(env, 0, {}, moved.graph, r.target);
    PromoteAllSteady(env, 0, {}, moved.graph, edges);
    SteadyGrows(env, moved.graph, promoted, env.limits);
    var settled := Settle(env, s, lin, r, node, ins);
    var touched := Affected(r, node, ins.edges, moved);
    RefreshSteady(env, 0, {}, settled.state, promoted, s.marks, s.publishers, touched);
    SteadyGrows(env, promoted, settled.graph, env.limits);
    GrowsTrans(ins.graph, moved.graph, promoted, env.limits);
    GrowsTrans(ins.graph, promoted, settled.graph, env.limits);
    EdgeIdsCount(edges);
    if moved.edges == [] {
      assert edges == ins.edges;
    }
  }

  lemma EdgeIdsCount(edges: seq<Edge>)
    ensures |EdgeIds(edges)| == |edges|
  {
  }
}
