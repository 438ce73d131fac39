// What each kind of accepted publication leaves of the records it touches.
module Aftermath {
  import opened Types
  import opened Ordering
  import opened Digraph
  import opened GraphModel
  import opened StoreTypes
  import opened CurrentnessModel
  import opened Requests
  import opened CommitPipeline
  import opened Soundness
  import opened Admission
  import opened Insertions
  import opened Evolution
  import opened Rebinding
  import opened Settlement
  import opened Transition
  import opened LineageSteps
  import opened CommitSteps
  import opened Growth
  import opened Progress
  import opened Scenes

  /** The record stands under this identity, up to its currentness. */
  predicate Stands(g: Graph, id: nat, n: Node) {
    id in g.nodes && g.nodes[id] == n.(currentness := g.nodes[id].currentness)
  }

  predicate HoldsIn(g: Graph, id: nat, lifecycle: NodeLifecycle) {
    id in g.nodes && g.nodes[id].lifecycle == lifecycle
  }

  /** What the transition of the request's kind makes of a record is what the settled lineage holds,
      unless the record is a declaration that edges promote. */
  lemma MovedRecord(env: Env, s: Store, lin: Lineage, r: Request, node: Node, edges: seq<Edge>, id: nat, n: Node)
    requires r.kind != LinkKind && Stands(MovedOf(env, lin, r, node, edges).graph, id, n)
    requires n.lifecycle != Declared || (r.kind == DeclarationKind && edges == [])
    ensures Stands(Settled(env, s, lin, r, node, edges).graph, id, n)
  {
    hide Counted, Affected, Recomputed, Settled, Keys14, Inserted;
    var moved := MovedOf(env, lin, r, node, edges);
    SettledShape(env, s, lin, r, node, edges);
    if n.lifecycle != Declared {
      PromoteAllKeeps(moved.graph, ReportedEdges(r, edges) + moved.edges, id);
    }
  }

  lemma InsertedRecords(lin: Lineage, r: Request, node: Node, edges: seq<Edge>)
    requires r.kind != LinkKind
    ensures Inserted(lin, r, node, edges).nodes == lin.graph.nodes[node.id := node]
  {
    hide WithEdges;
    WithEdgesContents(lin.graph.(nodes := lin.graph.nodes[node.id := node]), edges);
  }

  /** A new record stands as it was built. */
  lemma NewRecordStands(env: Env, s: Store, lin: Lineage, lid: nat, r: Request, node: Node, edges: seq<Edge>,
                        marked: Store)
    requires Ready(env, s, lin, lid, r, node, edges)
    requires r.kind == RouteStateKind || r.kind == CorrectionKind || (r.kind == DeclarationKind && edges == [])
    ensures Stands(Settled(env, marked, lin, r, node, edges).graph, node.id, node)
  {
    hide Settled, Inserted, LineageSound, BatchFits, BatchEdges, NormalForm, MatchesSpecs, StageFreshness, StageLimits,
      MoveCorrection, Env.CollisionFree, ValidateNode, CorrectedGraph, Bookkeep;
    if r.kind == CorrectionKind {
      CorrectionGraph(env, s, lin, lid, r, node, edges);
      CorrectedHolds(lin.graph, MovedOf(env, lin, r, node, edges).graph, r.target, node);
    } else {
      InsertedRecords(lin, r, node, edges);
    }
    MovedRecord(env, marked, lin, r, node, edges, node.id, node);
  }

  lemma CorrectedHolds(g: Graph, h: Graph, target: nat, node: Node)
    requires CorrectedGraph(g, h, target, node)
    ensures Stands(h, node.id, node) && HoldsIn(h, target, Invalid) && target != node.id
  {
    hide Succeeds;
  }

  lemma HeldLifecycle(env: Env, s: Store, lin: Lineage, r: Request, node: Node, edges: seq<Edge>, id: nat,
                      lifecycle: NodeLifecycle)
    requires r.kind != LinkKind && HoldsIn(MovedOf(env, lin, r, node, edges).graph, id, lifecycle)
    requires lifecycle != Declared
    ensures HoldsIn(Settled(env, s, lin, r, node, edges).graph, id, lifecycle)
  {
    hide MovedOf, Settled;
    MovedRecord(env, s, lin, r, node, edges, id, MovedOf(env, lin, r, node, edges).graph.nodes[id]);
  }

  /** A successor supersedes the record that was current. */
  lemma CurrentSuperseded(env: Env, s: Store, lin: Lineage, r: Request, node: Node, e: Edge, n: Node)
    requires r.kind == RouteStateKind && e.etype == Supersedes && e.to == n.id && n.id == lin.state.currentNode
    requires HoldsRecord(lin.graph, n) && n.lifecycle == Current && n.id != node.id
    ensures HoldsIn(Settled(env, s, lin, r, node, [e]).graph, n.id, Superseded)
  {
    hide Settled, Inserted;
    InsertedRecords(lin, r, node, [e]);
    assert [e][0] == e;
    HeldLifecycle(env, s, lin, r, node, [e], n.id, Superseded);
  }

  lemma TargetCorrected(env: Env, s: Store, lin: Lineage, lid: nat, r: Request, node: Node, edges: seq<Edge>,
                        marked: Store)
    requires Ready(env, s, lin, lid, r, node, edges) && r.kind == CorrectionKind
    ensures HoldsIn(Settled(env, marked, lin, r, node, edges).graph, r.target, Invalid) && r.target != node.id
  {
    hide Ready, Settled, MovedOf, CorrectedGraph;
    CorrectionGraph(env, s, lin, lid, r, node, edges);
    CorrectedHolds(lin.graph, MovedOf(env, lin, r, node, edges).graph, r.target, node);
    HeldLifecycle(env, marked, lin, r, node, edges, r.target, Invalid);
  }

  lemma TargetInvalidated(env: Env, s: Store, lin: Lineage, r: Request, node: Node, edges: seq<Edge>)
    requires r.kind == InvalidationKind && r.target in lin.graph.nodes
    ensures HoldsIn(Settled(env, s, lin, r, node, edges).graph, r.target, Invalid)
  {
    hide Settled, Inserted;
    InsertedRecords(lin, r, node, edges);
    TransitionsRise(Inserted(lin, r, node, edges).nodes[r.target].lifecycle, Invalid);
    HeldLifecycle(env, s, lin, r, node, edges, r.target, Invalid);
  }

  /** An edge leads from the one record to the other, and no edge from it leads elsewhere. */
  ghost predicate LeadsOnlyTo(g: Graph, from: nat, to: nat) {
    && (from, to) in EdgeArcs(g)
    && forall e :: e in g.edges && g.edges[e].from == from ==> g.edges[e].to == to
  }

  lemma SettledEdgesAre(env: Env, s: Store, lin: Lineage, lid: nat, r: Request, node: Node, edges: seq<Edge>,
                        marked: Store)
    requires Ready(env, s, lin, lid, r, node, edges)
    ensures Settled(env, marked, lin, r, node, edges).graph.edges == Grown(env, lin, r, node, edges).edges
  {
    hide Ready, Settled, Grown, NodesSound, MovedOf, Succeeds, Keys14;
    SettledSteady(env, s, lin, lid, r, node, edges, marked);
  }

  lemma FirstEdgeIn(g: Graph, e: Edge)
    requires e.id !in g.edges
    ensures (e.from, e.to) in EdgeArcs(WithEdges(g, [e]))
  {
    assert WithEdges(WithEdge(g, e), []) == WithEdge(g, e);
    assert [e][1..] == [] && WithEdge(g, e).edges[e.id] == e;
  }

  lemma BatchEdgeIn(env: Env, s: Store, lin: Lineage, lid: nat, r: Request, node: Node, e: Edge)
    requires Ready(env, s, lin, lid, r, node, [e]) && r.kind == RouteStateKind && WellFormed(lin.graph)
    requires node.id !in lin.graph.nodes && e.from == node.id
    ensures (e.from, e.to) in EdgeArcs(Grown(env, lin, r, node, [e]))
  {
    hide Ready, WithEdges, EdgeArcs;
    GrownIsInserted(env, lin, r, node, [e]);
    BatchEdgeIsNew(env, s, lin, lid, r, node, e);
    FirstEdgeIn(lin.graph.(nodes := lin.graph.nodes[node.id := node]), e);
  }

  lemma BatchEdgeIsNew(env: Env, s: Store, lin: Lineage, lid: nat, r: Request, node: Node, e: Edge)
    requires Ready(env, s, lin, lid, r, node, [e]) && WellFormed(lin.graph)
    requires node.id !in lin.graph.nodes && e.from == node.id
    ensures e.id !in lin.graph.edges
  {
    hide Ready, LineageSound, Admitted, NormalForm, Env.CollisionFree, Room, Env.FinalizeEdge, ValidateEdge,
      ReboundEdges;
    ReadyParts(env, s, lin, lid, r, node, [e]);
    NewEdgeSound(env, s, lin, lid, r, node, [e], e);
    if e.id in lin.graph.edges {
      EdgeIsSound(env, lid, lin, e.id);
      SameEnds(env, lin.graph.edges[e.id], e);
    }
  }

  lemma SameEnds(env: Env, a: Edge, b: Edge)
    requires env.CollisionFree() && a == env.FinalizeEdge(a) && b == env.FinalizeEdge(b) && a.id == b.id
    ensures a.from == b.from
  {
    SameEdgeIdSameContent(env, a, b);
    assert CanonEdge(a).from == a.from && CanonEdge(b).from == b.from;
  }

  /** The edges of a new route state are those of its batch. */
  lemma NewestEdges(env: Env, s: Store, lin: Lineage, lid: nat, r: Request, node: Node, e: Edge, marked: Store)
    requires Ready(env, s, lin, lid, r, node, [e]) && r.kind == RouteStateKind && e.from == node.id
    ensures LeadsOnlyTo(Settled(env, marked, lin, r, node, [e]).graph, node.id, e.to)
  {
    hide Ready, Settled, Grown, LineageSound, Admitted, EdgeSound, NormalForm, Env.CollisionFree, Room;
    SettledArcs(env, s, lin, lid, r, node, e, marked);
    ReadyParts(env, s, lin, lid, r, node, [e]);
    RecordIdIsValid(env, s, lin, lid, r, node, [e]);
    SoundIsWellFormed(env, lid, lin);
    GrownContents(env, s, lin, lid, r, node, [e]);
    SettledEdgesAre(env, s, lin, lid, r, node, [e], marked);
  }

  lemma SettledArcs(env: Env, s: Store, lin: Lineage, lid: nat, r: Request, node: Node, e: Edge, marked: Store)
    requires Ready(env, s, lin, lid, r, node, [e]) && r.kind == RouteStateKind && e.from == node.id
    ensures (node.id, e.to) in EdgeArcs(Settled(env, marked, lin, r, node, [e]).graph)
  {
    hide Ready, Settled, Grown, LineageSound, Admitted, NormalForm, Env.CollisionFree, Room, EdgeArcs;
    ReadyParts(env, s, lin, lid, r, node, [e]);
    RecordIdIsValid(env, s, lin, lid, r, node, [e]);
    SoundIsWellFormed(env, lid, lin);
    BatchEdgeIn(env, s, lin, lid, r, node, e);
    SettledEdgesAre(env, s, lin, lid, r, node, [e], marked);
    ArcsOfSameEdges(Settled(env, marked, lin, r, node, [e]).graph, Grown(env, lin, r, node, [e]));
  }

  /** A declaration brings no edge. */
  lemma StaysEdgeless(env: Env, s: Store, lin: Lineage, lid: nat, r: Request, node: Node, marked: Store)
    requires Ready(env, s, lin, lid, r, node, []) && r.kind == DeclarationKind && lin.graph.edges == map[]
    ensures Settled(env, marked, lin, r, node, []).graph.edges == map[]
  {
    hide Ready, Settled;
    SettledEdgesAre(env, s, lin, lid, r, node, [], marked);
  }

  /** The ledger entry of a link lists its edge twice. */
  lemma LinkListsTwice(env: Env, s: Store, lin: Lineage, r: Request, node: Node, e: Edge)
    requires r.kind == LinkKind
    ensures HasLink(Settled(env, s, lin, r, node, [e]).attempts)
  {
    hide Inserted, Env.RequestDigest, Refresh, Affected, Promote, HistoryRecords, Bookkeep;
    var key := AttemptKeyOf(r.authority);
    assert |Settled(env, s, lin, r, node, [e]).attempts[key].edges| == 2;
  }
}
