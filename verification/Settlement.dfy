// Stage 14 on a sound lineage: what is inserted, and why the lineage is sound afterwards.
module Settlement {
  import opened Types
  import opened Ordering
  import opened Digraph
  import opened GraphModel
  import opened StoreTypes
  import opened CurrentnessModel
  import opened Requests
  import opened CommitPipeline
  import opened Soundness
  import opened Admission
  import opened Insertions
  import opened Evolution
  import opened Rebinding

  /** An admissible commit on a sound lineage, with room. */
  ghost predicate Ready(env: Env, s: Store, lin: Lineage, lid: nat, r: Request, node: Node, edges: seq<Edge>) {
    && env.CollisionFree()
    && LineageSound(env, lid, lin)
    && NormalForm(r)
    && Admitted(env, s, lin, lid, r, node, edges)
    && BatchFits(env, lin, r, node, edges)
  }

  function Keys14(lin: Lineage, r: Request): set<AttemptKey> {
    lin.attempts.Keys + {AttemptKeyOf(r.authority)}
  }

  /** The lineage's graph with the record and the edges of the batch. */
  function Inserted(lin: Lineage, r: Request, node: Node, edges: seq<Edge>): Graph {
    var g := lin.graph;
    if r.kind != LinkKind then WithEdges(g.(nodes := g.nodes[node.id := node]), edges)
    else if edges == [] then g
    else WithEdge(g, edges[0])
  }

  /** The lineage's graph with everything the commit inserts, before any state changes. */
  function Grown(env: Env, lin: Lineage, r: Request, node: Node, edges: seq<Edge>): Graph {
    WithEdges(Inserted(lin, r, node, edges), ReboundEdges(env, lin.graph, r, node))
  }

  function ReportedOutcome(r: Request): Outcome {
    if r.kind == LinkKind then Linked else Created
  }

  function ReportedEdges(r: Request, edges: seq<Edge>): seq<Edge> {
    if r.kind == LinkKind then edges + edges else edges
  }

  lemma CorrectionIsOutward(env: Env, s: Store, lin: Lineage, lid: nat, r: Request, node: Node, edges: seq<Edge>)
    requires Admitted(env, s, lin, lid, r, node, edges) && NormalForm(r) && r.kind == CorrectionKind
    ensures AllOutward(edges)
  {
    hide BatchEdges, GoodRecord, StageLimits, StageFreshness, LinkEdge;
    assert edges[0].etype == Corrects;
  }

  lemma ReadyParts(env: Env, s: Store, lin: Lineage, lid: nat, r: Request, node: Node, edges: seq<Edge>)
    requires Ready(env, s, lin, lid, r, node, edges)
    ensures env.CollisionFree() && LineageSound(env, lid, lin) && NormalForm(r)
    ensures Admitted(env, s, lin, lid, r, node, edges)
    ensures Room(lin.graph, edges, env.limits)
    ensures r.kind != LinkKind ==> AllOutward(edges) || AllInward(edges)
    ensures r.kind == LinkKind ==> |edges| == 1
    ensures AttemptKeyOf(r.authority) !in lin.attempts
  {
    hide LineageSound, NormalForm, GoodRecord, BatchEdges, MatchesSpecs, LinkEdge, Env.CollisionFree, Room,
      StageLimits, StageFreshness;
    RoomForFirst(lin.graph, edges, ReboundEdges(env, lin.graph, r, node), env.limits);
  }

  /** Everything admitted is inserted, and nothing is refused. */
  lemma BatchInserted(env: Env, s: Store, lin: Lineage, lid: nat, r: Request, node: Node, edges: seq<Edge>)
    requires Ready(env, s, lin, lid, r, node, edges)
    ensures InsertBatch(lin.graph, r, node, edges, env.limits) ==
            Insertion(Inserted(lin, r, node, edges), ReportedOutcome(r), ReportedEdges(r, edges), Ok)
    ensures IsDag(Inserted(lin, r, node, edges))
    ensures r.kind != LinkKind && AllOutward(edges) ==>
              Hub(env, Inserted(lin, r, node, edges), node.id, true, [])
  {
    hide Ready, LineageSound, Admitted, Room, IsDag, AllFinal, OneSided, Spokes, InsertBatch;
    ReadyParts(env, s, lin, lid, r, node, edges);
    if r.kind == LinkKind {
      assert edges == [edges[0]];
      AdmittedLinkIsInserted(env, s, lin, lid, r, node, edges[0]);
    } else {
      AdmittedBatchIsInserted(env, s, lin, lid, r, node, edges, AllOutward(edges));
    }
  }

  // ---------------------------------------------------------------------------------------
  // Corrections
  // ---------------------------------------------------------------------------------------

  ghost predicate KeepsEdges(g: Graph, h: Graph) {
    forall e :: e in g.edges ==> e in h.edges && h.edges[e] == g.edges[e]
  }

  ghost predicate LeavesNode(g: Graph, h: Graph, id: nat) {
    forall e :: e in h.edges && e !in g.edges ==> h.edges[e].from == id
  }

  lemma NewEdgesLeaveNode(env: Env, s: Store, lin: Lineage, lid: nat, r: Request, node: Node, edges: seq<Edge>)
    requires Admitted(env, s, lin, lid, r, node, edges) && r.kind != LinkKind && AllOutward(edges)
    ensures KeepsEdges(lin.graph, Inserted(lin, r, node, edges))
    ensures LeavesNode(lin.graph, Inserted(lin, r, node, edges), node.id)
  {
    hide GoodRecord, MatchesSpecs, StageFreshness, StageLimits, Env.FinalizeEdge, ValidateEdge;
    var g := lin.graph;
    WithEdgesContents(g.(nodes := g.nodes[node.id := node]), edges);
    var h := Inserted(lin, r, node, edges);
    forall e | e in h.edges && e !in g.edges ensures h.edges[e].from == node.id {
      var i :| 0 <= i < |edges| && edges[i].id == e && h.edges[e] == edges[i];
      assert BatchEdge(env, lid, g, r, node, edges[i]);
    }
  }

  lemma CorrectionTargetPresent(env: Env, s: Store, lin: Lineage, lid: nat, r: Request, node: Node, edges: seq<Edge>)
    requires Admitted(env, s, lin, lid, r, node, edges) && r.kind == CorrectionKind
    ensures r.target in lin.graph.nodes && node.id !in lin.graph.nodes
  {
    hide BatchEdges, MatchesSpecs, StageFreshness, StageLimits, ValidateNode;
  }

  lemma TargetEdgesUnchanged(env: Env, s: Store, lin: Lineage, lid: nat, r: Request, node: Node, edges: seq<Edge>)
    requires Ready(env, s, lin, lid, r, node, edges) && r.kind == CorrectionKind
    ensures r.target != node.id && OutgoingIds(Inserted(lin, r, node, edges), r.target) ==
            OutgoingIds(lin.graph, r.target)
    ensures KeepsEdges(lin.graph, Inserted(lin, r, node, edges))
  {
    hide Ready, LineageSound, Admitted, Room, Env.CollisionFree, Inserted, NormalForm, Sorted;
    ReadyParts(env, s, lin, lid, r, node, edges);
    CorrectionIsOutward(env, s, lin, lid, r, node, edges);
    CorrectionTargetPresent(env, s, lin, lid, r, node, edges);
    NewEdgesLeaveNode(env, s, lin, lid, r, node, edges);
    assert EdgesAt(Inserted(lin, r, node, edges), Outgoing, r.target) == EdgesAt(lin.graph, Outgoing, r.target);
  }

  lemma {:induction false} SameRebounds(env: Env, g: Graph, h: Graph, ids: seq<nat>, id: nat, authority: Authority)
    requires KeepsEdges(g, h) && forall e :: e in ids ==> e in g.edges
    ensures Rebounds(env, g, ids, id, authority) == Rebounds(env, h, ids, id, authority)
    decreases |ids|
  {
    hide Rebound;
    if ids != [] {
      SameRebounds(env, g, h, ids[1..], id, authority);
    }
  }

  ghost predicate HoldsNode(g: Graph, node: Node, lid: nat) {
    WellFormed(g) && node.id in g.nodes && g.nodes[node.id].core.lineage == lid
  }

  lemma InsertedNode(env: Env, s: Store, lin: Lineage, lid: nat, r: Request, node: Node, edges: seq<Edge>)
    requires Ready(env, s, lin, lid, r, node, edges) && r.kind != LinkKind
    ensures HoldsNode(Inserted(lin, r, node, edges), node, lid)
    ensures lin.graph.nodes.Keys <= Inserted(lin, r, node, edges).nodes.Keys
  {
    hide Ready, LineageSound, Admitted, Hub, InsertBatch, Acyclic;
    ReadyParts(env, s, lin, lid, r, node, edges);
    BatchInserted(env, s, lin, lid, r, node, edges);
    AdmittedNodeLineage(env, s, lin, lid, r, node, edges);
    WithEdgesContents(lin.graph.(nodes := lin.graph.nodes[node.id := node]), edges);
  }

  lemma EdgeFacts(env: Env, lid: nat, lin: Lineage, e: nat)
    requires LineageSound(env, lid, lin) && e in lin.graph.edges
    ensures
      var edge := lin.graph.edges[e];
      ValidateEdge(edge) == Ok && edge.lineage == lid && edge.id == e && edge.to in lin.graph.nodes &&
      edge.from in lin.graph.nodes
  {
    hide NodesSound, CurrentPresent, CountsExact, LedgerSound, Acyclic, Env.FinalizeEdge;
    assert EdgeSound(env, lid, lin.attempts.Keys, lin.graph.edges[e]);
  }

  lemma ReboundsSpoke(env: Env, s: Store, lin: Lineage, lid: nat, r: Request, node: Node, edges: seq<Edge>)
    requires Ready(env, s, lin, lid, r, node, edges) && r.kind == CorrectionKind
    ensures Spokes(env, Inserted(lin, r, node, edges), node.id, true, ReboundEdges(env, lin.graph, r, node))
  {
    hide Ready, LineageSound, Admitted, Rebound, Rebounds, Spoke, Inserted, ValidateEdge, WellFormed;
    var g, h, rebounds := lin.graph, Inserted(lin, r, node, edges), ReboundEdges(env, lin.graph, r, node);
    ReadyParts(env, s, lin, lid, r, node, edges);
    InsertedNode(env, s, lin, lid, r, node, edges);
    CorrectionTargetPresent(env, s, lin, lid, r, node, edges);
    forall i | 0 <= i < |rebounds| ensures Spoke(env, h, node.id, true, rebounds[i]) {
      ReboundEdgesContents(env, g, r, node, rebounds[i]);
      var e :| IsReboundOf(env, g, r, node, e, rebounds[i]);
      EdgeFacts(env, lid, lin, e);
      ReboundSpoke(env, h, node.id, g.edges[e], r.authority);
    }
  }

  lemma HubWithSpokes(env: Env, g: Graph, id: nat, edges: seq<Edge>)
    requires Hub(env, g, id, true, []) && Spokes(env, g, id, true, edges)
    ensures Hub(env, g, id, true, edges)
  {
  }

  /** Re-binding the target's edges in h gives exactly this graph, and reports successor edges. */
  ghost predicate RebindsTo(env: Env, h: Graph, r: Request, node: Node, grown: Graph) {
    var rebound := RebindAll(env, h, h, OutgoingIds(h, r.target), node.id, r.authority);
    rebound.graph == grown && AllSuccessors(rebound.edges)
  }

  lemma CorrectionRebinds(env: Env, s: Store, lin: Lineage, lid: nat, r: Request, node: Node, edges: seq<Edge>)
    requires Ready(env, s, lin, lid, r, node, edges) && r.kind == CorrectionKind
    ensures RebindsTo(env, Inserted(lin, r, node, edges), r, node, Grown(env, lin, r, node, edges))
    ensures IsDag(Grown(env, lin, r, node, edges))
  {
    hide KeepsEdges, EdgesAt, Ready, Hub, Room, Spokes, IsDag, RebindAll, Rebounds, Env.CollisionFree, WithEdges,
      LineageSound, Admitted, NormalForm, Sorted;
    ReadyParts(env, s, lin, lid, r, node, edges);
    CorrectionIsOutward(env, s, lin, lid, r, node, edges);
    BatchInserted(env, s, lin, lid, r, node, edges);
    TargetEdgesUnchanged(env, s, lin, lid, r, node, edges);
    ReboundsSpoke(env, s, lin, lid, r, node, edges);
    var h, ids := Inserted(lin, r, node, edges), OutgoingIds(lin.graph, r.target);
    OutgoingPresent(lin.graph, r.target);
    SameRebounds(env, lin.graph, h, ids, node.id, r.authority);
    HubWithSpokes(env, h, node.id, ReboundEdges(env, lin.graph, r, node));
    FitsRebounds(env, s, lin, lid, r, node, edges);
    RebindComplete(env, h, h, ids, node.id, r.authority);
    HubIsDag(env, Grown(env, lin, r, node, edges), node.id);
  }

  lemma OutgoingPresent(g: Graph, id: nat)
    ensures forall e :: e in OutgoingIds(g, id) ==> e in g.edges
  {
    hide Sorted;
    SortedMembers(EdgesAt(g, Outgoing, id));
  }

  lemma HubIsDag(env: Env, g: Graph, id: nat)
    requires Hub(env, g, id, true, [])
    ensures IsDag(g)
  {
  }

  lemma FitsRebounds(env: Env, s: Store, lin: Lineage, lid: nat, r: Request, node: Node, edges: seq<Edge>)
    requires Ready(env, s, lin, lid, r, node, edges) && r.kind == CorrectionKind
    ensures Room(Inserted(lin, r, node, edges), ReboundEdges(env, lin.graph, r, node), env.limits)
  {
    hide LineageSound, Admitted, Room, NormalForm, Env.CollisionFree;
    var g := lin.graph;
    var base := g.(nodes := g.nodes[node.id := node]);
    var rebounds := ReboundEdges(env, g, r, node);
    SameRoomWithNode(g, base, edges + rebounds, env.limits);
    RoomForSecond(base, edges, rebounds, env.limits);
  }

  // ---------------------------------------------------------------------------------------
  // The grown graph is sound
  // ---------------------------------------------------------------------------------------

  lemma GrownIsDag(env: Env, s: Store, lin: Lineage, lid: nat, r: Request, node: Node, edges: seq<Edge>)
    requires Ready(env, s, lin, lid, r, node, edges)
    ensures IsDag(Grown(env, lin, r, node, edges))
  {
    hide Ready, IsDag, Inserted;
    BatchInserted(env, s, lin, lid, r, node, edges);
    if r.kind == CorrectionKind {
      CorrectionRebinds(env, s, lin, lid, r, node, edges);
    }
  }

  /** A new edge of the commit: from the batch or re-bound. */
  ghost predicate NewEdge(env: Env, lin: Lineage, lid: nat, r: Request, node: Node, edges: seq<Edge>, e: Edge) {
    && EdgeSound(env, lid, {AttemptKeyOf(r.authority)}, e)
    && (e in edges || e in ReboundEdges(env, lin.graph, r, node))
  }

  /** An edge the commit is to insert is sound. */
  lemma NewEdgeSound(env: Env, s: Store, lin: Lineage, lid: nat, r: Request, node: Node, edges: seq<Edge>, e: Edge)
    requires Ready(env, s, lin, lid, r, node, edges)
    requires e in edges || e in ReboundEdges(env, lin.graph, r, node)
    ensures NewEdge(env, lin, lid, r, node, edges, e)
  {
    hide Ready, LineageSound, GoodRecord, MatchesSpecs, StageLimits, StageFreshness, Env.FinalizeEdge, ValidateEdge,
      Env.CollisionFree, Room, Rebounds;
    ReadyParts(env, s, lin, lid, r, node, edges);
    if e in edges {
      var i :| 0 <= i < |edges| && edges[i] == e;
      assert r.kind != LinkKind ==> BatchEdge(env, lid, lin.graph, r, node, edges[i]);
    } else {
      ReboundEdgeSound(env, s, lin, lid, r, node, edges, e);
    }
  }

  lemma ReboundEdgeSound(env: Env, s: Store, lin: Lineage, lid: nat, r: Request, node: Node, edges: seq<Edge>, b: Edge)
    requires Ready(env, s, lin, lid, r, node, edges) && b in ReboundEdges(env, lin.graph, r, node)
    ensures EdgeSound(env, lid, {AttemptKeyOf(r.authority)}, b)
  {
    hide Ready, LineageSound, Admitted, Rebounds, Env.FinalizeEdge, ValidateEdge, Env.CollisionFree, Room, Rebound;
    ReadyParts(env, s, lin, lid, r, node, edges);
    ReboundsSpoke(env, s, lin, lid, r, node, edges);
    var rebounds := ReboundEdges(env, lin.graph, r, node);
    var j :| 0 <= j < |rebounds| && rebounds[j] == b;
    assert Spoke(env, Inserted(lin, r, node, edges), node.id, true, rebounds[j]);
    ReboundEdgesContents(env, lin.graph, r, node, b);
    var e :| IsReboundOf(env, lin.graph, r, node, e, b);
    ReboundType(env, lin.graph.edges[e], node.id, r.authority);
    EdgeFacts(env, lid, lin, e);
  }

  /** The grown graph: the new record if there is one, every old edge, and new edges only. */
  ghost predicate GrownFrom(env: Env, lin: Lineage, lid: nat, r: Request, node: Node, edges: seq<Edge>, h: Graph) {
    var g := lin.graph;
    && h.nodes == (if r.kind == LinkKind then g.nodes else g.nodes[node.id := node])
    && KeepsEdges(g, h)
    && (forall e :: e in h.edges && e !in g.edges ==> NewEdge(env, lin, lid, r, node, edges, h.edges[e]))
  }

  lemma GrownContents(env: Env, s: Store, lin: Lineage, lid: nat, r: Request, node: Node, edges: seq<Edge>)
    requires Ready(env, s, lin, lid, r, node, edges)
    ensures GrownFrom(env, lin, lid, r, node, edges, Grown(env, lin, r, node, edges))
  {
    hide Ready, Admitted, EdgeSound, ReboundEdges, LineageSound, WithEdges, Env.CollisionFree, Room, NewEdge;
    ReadyParts(env, s, lin, lid, r, node, edges);
    var g, h, rebounds := lin.graph, Grown(env, lin, r, node, edges), ReboundEdges(env, lin.graph, r, node);
    WithEdgesContents(g.(nodes := g.nodes[node.id := node]), edges);
    WithEdgesContents(Inserted(lin, r, node, edges), rebounds);
    if r.kind == LinkKind {
      FreshLink(env, s, lin, lid, r, node, edges);
    }
    forall e | e in h.edges && e !in g.edges ensures NewEdge(env, lin, lid, r, node, edges, h.edges[e]) {
      assert h.edges[e] in edges || h.edges[e] in rebounds;
      NewEdgeSound(env, s, lin, lid, r, node, edges, h.edges[e]);
    }
  }

  lemma FreshLink(env: Env, s: Store, lin: Lineage, lid: nat, r: Request, node: Node, edges: seq<Edge>)
    requires Admitted(env, s, lin, lid, r, node, edges) && r.kind == LinkKind
    ensures |edges| == 1 && edges[0].id !in lin.graph.edges
  {
    hide GoodRecord, StageFreshness, StageLimits, Env.FinalizeEdge, ValidateEdge;
  }

  lemma OriginMonotone(env: Env, lid: nat, attempts: set<AttemptKey>, more: set<AttemptKey>, n: Node)
    requires NodeSound(env, lid, attempts, n) && attempts <= more
    ensures NodeSound(env, lid, more, n)
  {
    var c :| env.nodeIdOf(c) == n.id && c.lineage == lid && AttemptKeyOf(c.authority) in attempts;
    assert AttemptKeyOf(c.authority) in more;
  }

  lemma NewNodeSound(env: Env, s: Store, lin: Lineage, lid: nat, r: Request, node: Node, edges: seq<Edge>)
    requires Admitted(env, s, lin, lid, r, node, edges) && r.kind != LinkKind
    ensures NodeSound(env, lid, {AttemptKeyOf(r.authority)}, node)
  {
    hide BatchEdges, MatchesSpecs, StageLimits, StageFreshness;
    var c := CanonCore(node.core);
    assert env.nodeIdOf(c) == node.id && c.lineage == lid && AttemptKeyOf(c.authority) == AttemptKeyOf(r.authority);
  }

  lemma GrownNodesSound(env: Env, s: Store, lin: Lineage, lid: nat, r: Request, node: Node, edges: seq<Edge>, h: Graph)
    requires Ready(env, s, lin, lid, r, node, edges)
    requires h.nodes == if r.kind == LinkKind then lin.graph.nodes else lin.graph.nodes[node.id := node]
    ensures NodesSound(env, lid, Keys14(lin, r), h)
  {
    hide Ready, LineageSound, Admitted, NodeSound, Env.CollisionFree, Room;
    ReadyParts(env, s, lin, lid, r, node, edges);
    var keys := Keys14(lin, r);
    forall id | id in h.nodes ensures NodeSound(env, lid, keys, h.nodes[id]) {
      if r.kind != LinkKind && id == node.id {
        NewNodeSound(env, s, lin, lid, r, node, edges);
        OriginMonotone(env, lid, {AttemptKeyOf(r.authority)}, keys, node);
      } else {
        NodeIsSound(env, lid, lin, id);
        OriginMonotone(env, lid, lin.attempts.Keys, keys, h.nodes[id]);
      }
    }
  }

  /** The grown graph is sound with the new attempt recorded. */
  lemma GrownIsSound(env: Env, s: Store, lin: Lineage, lid: nat, r: Request, node: Node, edges: seq<Edge>)
    requires Ready(env, s, lin, lid, r, node, edges)
    ensures GraphSound(env, lid, Keys14(lin, r), Grown(env, lin, r, node, edges))
  {
    hide Ready, LineageSound, Admitted, IsDag, NodesSound, Grown, ValidateEdge, Env.FinalizeEdge, Env.CollisionFree,
      Room;
    ReadyParts(env, s, lin, lid, r, node, edges);
    GrownIsDag(env, s, lin, lid, r, node, edges);
    GrownContents(env, s, lin, lid, r, node, edges);
    var g, h, keys := lin.graph, Grown(env, lin, r, node, edges), Keys14(lin, r);
    GrownNodesSound(env, s, lin, lid, r, node, edges, h);
    forall e | e in h.edges ensures EdgeSound(env, lid, keys, h.edges[e]) {
      if e in g.edges {
        EdgeIsSound(env, lid, lin, e);
      }
    }
  }
}
