// One lineage's provenance graph as a value, and the operations of src/graph.cpp on it as
// functions: what each call answers and what the graph is afterwards. The class in
// ProvenanceGraph.dfy computes these with index maps, worklists and counters.
module GraphModel {
  import opened Types
  import opened Digraph
  import opened Ordering

  datatype Graph = Graph(nodes: map<nat, Node>, edges: map<nat, Edge>)

  const EMPTY_GRAPH: Graph := Graph(map[], map[])

  datatype Direction = Outgoing | Incoming

  type EdgeTypeFilter = EdgeType -> bool

  const ALL_TYPES: EdgeTypeFilter := (t: EdgeType) => true

  function Tail(e: Edge, d: Direction): nat {
    if d.Outgoing? then e.from else e.to
  }

  function Head(e: Edge, d: Direction): nat {
    if d.Outgoing? then e.to else e.from
  }

  /** The arcs a walk in the given direction may follow over the edges the filter keeps. */
  ghost function FilteredArcs(g: Graph, d: Direction, keep: EdgeTypeFilter): Arcs {
    set e | e in g.edges && keep(g.edges[e].etype) :: (Tail(g.edges[e], d), Head(g.edges[e], d))
  }

  /** The arcs of the whole graph, from effect to cause. */
  ghost function EdgeArcs(g: Graph): Arcs {
    set e | e in g.edges :: (g.edges[e].from, g.edges[e].to)
  }

  lemma UnfilteredArcs(g: Graph)
    ensures FilteredArcs(g, Outgoing, ALL_TYPES) == EdgeArcs(g)
  {
  }

  /** The edges leaving (or entering) a node. */
  function EdgesAt(g: Graph, d: Direction, n: nat): set<nat> {
    set e | e in g.edges && Tail(g.edges[e], d) == n
  }

  ghost predicate WellFormed(g: Graph) {
    && (forall n :: n in g.nodes ==> g.nodes[n].id == n && n != 0)
    && (forall e :: e in g.edges ==>
          g.edges[e].id == e && g.edges[e].from in g.nodes && g.edges[e].to in g.nodes)
  }

  /** The record is in the graph, under its identity. */
  predicate HoldsRecord(g: Graph, n: Node) {
    n.id in g.nodes && g.nodes[n.id] == n
  }

  /** The invariant every sequence of additions keeps. */
  ghost predicate IsDag(g: Graph) {
    WellFormed(g) && Acyclic(EdgeArcs(g))
  }

  // ---------------------------------------------------------------------------------------
  // Additions
  // ---------------------------------------------------------------------------------------

  function AddNodeOutcome(g: Graph, n: Node, limits: Limits): Outcome {
    if n.id == 0 then MalformedRequest
    else if ValidateNode(n) != Ok then ValidateNode(n)
    else if n.id in g.nodes then
      if CanonCore(g.nodes[n.id].core) == CanonCore(n.core) then Duplicate else Conflict
    else if |g.nodes| >= limits.maxNodes then ResourceLimit
    else Ok
  }

  function AddNode(g: Graph, n: Node, limits: Limits): Graph {
    if AddNodeOutcome(g, n, limits) == Ok then g.(nodes := g.nodes[n.id := n]) else g
  }

  /** The non-mutating cycle check. An endpoint may be a record the same publication is about to
      create, so an absent endpoint is not an error here. */
  ghost function CheckAddEdge(g: Graph, from: nat, to: nat): Outcome {
    if from == 0 || to == 0 then MalformedRequest
    else if from == to then CycleDetected
    else if from !in g.nodes || to !in g.nodes then Ok
    else if Reaches(EdgeArcs(g), to, from) then CycleDetected
    else Ok
  }

  predicate SameEdgeCore(a: Edge, b: Edge) {
    a.lineage == b.lineage && a.derivation == b.derivation && a.etype == b.etype &&
    a.from == b.from && a.to == b.to
  }

  ghost function AddEdgeOutcome(g: Graph, e: Edge, limits: Limits): Outcome {
    if ValidateEdge(e) != Ok then ValidateEdge(e)
    else if e.from in g.nodes && g.nodes[e.from].core.lineage != e.lineage then InvalidDerivation
    else if e.id in g.edges then
      if SameEdgeCore(g.edges[e.id], e) then Duplicate else Conflict
    else if |g.edges| >= limits.maxEdges then ResourceLimit
    else if e.from !in g.nodes || e.to !in g.nodes then MissingParent
    else if |EdgesAt(g, Incoming, e.to)| >= limits.maxParents then ResourceLimit
    else if |EdgesAt(g, Outgoing, e.from)| >= limits.maxChildren then ResourceLimit
    else CheckAddEdge(g, e.from, e.to)
  }

  function WithEdge(g: Graph, e: Edge): Graph {
    g.(edges := g.edges[e.id := e])
  }

  ghost function AddEdge(g: Graph, e: Edge, limits: Limits): Graph {
    if AddEdgeOutcome(g, e, limits) == Ok then WithEdge(g, e) else g
  }

  lemma ArcsWithEdge(g: Graph, e: Edge)
    requires e.id !in g.edges
    ensures EdgeArcs(WithEdge(g, e)) == EdgeArcs(g) + {(e.from, e.to)}
  {
    var h := WithEdge(g, e);
    assert (h.edges[e.id].from, h.edges[e.id].to) in EdgeArcs(h);
    forall a | a in EdgeArcs(g) ensures a in EdgeArcs(h) {
      var k :| k in g.edges && a == (g.edges[k].from, g.edges[k].to);
      assert h.edges[k] == g.edges[k];
    }
    forall a | a in EdgeArcs(h) ensures a in EdgeArcs(g) + {(e.from, e.to)} {
      var k :| k in h.edges && a == (h.edges[k].from, h.edges[k].to);
      if k != e.id {
        assert h.edges[k] == g.edges[k];
      }
    }
  }

  lemma ArcsOfSameEdges(g: Graph, h: Graph)
    requires g.edges == h.edges
    ensures EdgeArcs(g) == EdgeArcs(h)
  {
  }

  /** Adding a record keeps the graph a DAG. */
  lemma AddNodeKeepsDag(g: Graph, n: Node, limits: Limits)
    requires IsDag(g)
    ensures IsDag(AddNode(g, n, limits))
  {
    ArcsOfSameEdges(g, AddNode(g, n, limits));
  }

  /** Between present distinct endpoints an accepted edge keeps the graph a DAG, and the edge the
      check refuses as cyclic is exactly one that would have made it cyclic. */
  lemma AddEdgeKeepsDag(g: Graph, e: Edge, limits: Limits)
    requires IsDag(g)
    ensures IsDag(AddEdge(g, e, limits))
    ensures e.from in g.nodes && e.to in g.nodes && e.from != e.to && e.id !in g.edges ==>
              (CheckAddEdge(g, e.from, e.to) == CycleDetected <==>
               !Acyclic(EdgeArcs(WithEdge(g, e))))
  {
    if e.id !in g.edges {
      ArcsWithEdge(g, e);
      AddArcAcyclic(EdgeArcs(g), e.from, e.to);
    }
  }

  datatype Addition = NodeAddition(node: Node) | EdgeAddition(edge: Edge)

  ghost function AddAll(g: Graph, xs: seq<Addition>, limits: Limits): Graph
    decreases |xs|
  {
    if xs == [] then g
    else
      var x := xs[0];
      AddAll(if x.NodeAddition? then AddNode(g, x.node, limits) else AddEdge(g, x.edge, limits),
             xs[1..], limits)
  }

  /** Every sequence of additions, accepted or refused, leaves a DAG. */
  lemma {:induction false} AdditionsKeepDag(g: Graph, xs: seq<Addition>, limits: Limits)
    requires IsDag(g)
    ensures IsDag(AddAll(g, xs, limits))
    decreases |xs|
  {
    if xs != [] {
      var x := xs[0];
      if x.NodeAddition? {
        AddNodeKeepsDag(g, x.node, limits);
        AdditionsKeepDag(AddNode(g, x.node, limits), xs[1..], limits);
      } else {
        AddEdgeKeepsDag(g, x.edge, limits);
        AdditionsKeepDag(AddEdge(g, x.edge, limits), xs[1..], limits);
      }
    }
  }

  // ---------------------------------------------------------------------------------------
  // Record state
  // ---------------------------------------------------------------------------------------

  function UpdateNodeStateOutcome(g: Graph, id: nat, lifecycle: NodeLifecycle): Outcome {
    if id !in g.nodes then NodeNotFound
    else if !ValidTransition(g.nodes[id].lifecycle, lifecycle) then InvalidDerivation
    else Ok
  }

  function UpdateNodeState(g: Graph, id: nat, lifecycle: NodeLifecycle, currentness: Currentness,
                           revalidationRequired: bool): Graph {
    if UpdateNodeStateOutcome(g, id, lifecycle) != Ok then g
    else g.(nodes := g.nodes[id := g.nodes[id].(lifecycle := lifecycle, currentness := currentness,
                                                revalidationRequired := revalidationRequired)])
  }

  function MarkRevalidated(g: Graph, id: nat): Graph {
    if id !in g.nodes then g else g.(nodes := g.nodes[id := g.nodes[id].(revalidated := true)])
  }

  function SetCorrectedBy(g: Graph, id: nat, replacement: nat): Graph {
    if id !in g.nodes || replacement == 0 then g
    else g.(nodes := g.nodes[id := g.nodes[id].(correctedBy := Some(replacement))])
  }

  function CompactNodeOutcome(g: Graph, id: nat, tombstone: Node): Outcome {
    if id !in g.nodes then NodeNotFound
    else if tombstone.id != id then MalformedRequest
    else if tombstone.core.kind != CompactedSummary then MalformedRequest
    else ValidateNode(tombstone)
  }

  function CompactNode(g: Graph, id: nat, tombstone: Node): Graph {
    if CompactNodeOutcome(g, id, tombstone) != Ok then g
    else g.(nodes := g.nodes[id := tombstone])
  }

  // ---------------------------------------------------------------------------------------
  // Structure
  // ---------------------------------------------------------------------------------------

  ghost predicate EdgeAgrees(g: Graph, derivations: map<nat, nat>, e: Edge) {
    && e.from in g.nodes && e.to in g.nodes
    && g.nodes[e.from].core.lineage == e.lineage && g.nodes[e.to].core.lineage == e.lineage
    && e.derivation in derivations && derivations[e.derivation] == e.id
  }

  /** What validate_structure accepts of a graph whose adjacency lists agree with its edges: one
      lineage throughout, the derivation index in agreement, no cycle. */
  ghost predicate StructureOk(g: Graph, derivations: map<nat, nat>) {
    && (forall e :: e in g.edges ==> EdgeAgrees(g, derivations, g.edges[e]))
    && Acyclic(EdgeArcs(g))
  }

  // ---------------------------------------------------------------------------------------
  // Traversal
  // ---------------------------------------------------------------------------------------

  datatype Bounds = Bounds(maxDepth: nat, maxResults: nat, maxVisited: nat)

  /** A caller bound narrows the limit and never widens it; zero means the limit. */
  function Effective(bound: nat, limit: nat): nat {
    if bound == 0 then limit else if bound < limit then bound else limit
  }

  lemma EffectivePositive(bounds: Bounds, limits: Limits)
    requires limits.Positive()
    ensures Effective(bounds.maxDepth, limits.maxDepth) > 0
    ensures Effective(bounds.maxResults, limits.maxResults) > 0
    ensures Effective(bounds.maxVisited, limits.maxVisited) > 0
  {
  }

  datatype TraversalEntry = TraversalEntry(node: Node, depth: nat)

  datatype TraversalResult = TraversalResult(
    nodes: seq<TraversalEntry>, edges: seq<Edge>, truncated: bool, maxDepthReached: nat)

  const EMPTY_TRAVERSAL: TraversalResult := TraversalResult([], [], false, 0)

  /** Exactly the nodes within the depth, each with its shortest distance, by (depth, id). */
  ghost predicate ExactNodes(g: Graph, arcs: Arcs, origin: nat, depth: nat,
                             r: seq<TraversalEntry>) {
    && (forall i, j :: 0 <= i < j < |r| ==>
          Before((r[i].depth, r[i].node.id), (r[j].depth, r[j].node.id)))
    && (forall i :: 0 <= i < |r| ==>
          && r[i].node.id in g.nodes && r[i].node == g.nodes[r[i].node.id]
          && r[i].depth <= depth && AtDistance(arcs, origin, r[i].node.id, r[i].depth))
    && (forall n :: n in Ball(arcs, origin, depth) ==>
          exists i :: 0 <= i < |r| && r[i].node.id == n)
  }

  /** Exactly the edges among these that join nodes in frame, by id. */
  ghost predicate InducedEdges(edges: map<nat, Edge>, ids: set<nat>, frame: set<nat>, r: seq<Edge>)
  {
    && (forall i, j :: 0 <= i < j < |r| ==> r[i].id < r[j].id)
    && (forall i :: 0 <= i < |r| ==>
          && r[i].id in ids && r[i].id in edges && r[i] == edges[r[i].id]
          && r[i].from in frame && r[i].to in frame)
    && (forall e :: e in ids && e in edges && edges[e].from in frame && edges[e].to in frame ==>
          exists i :: 0 <= i < |r| && r[i].id == e)
  }

  ghost predicate GreatestDepth(r: seq<TraversalEntry>, d: nat) {
    && (forall i :: 0 <= i < |r| ==> r[i].depth <= d)
    && (exists i :: 0 <= i < |r| && r[i].depth == d)
  }

  ghost predicate ExactTraversal(g: Graph, arcs: Arcs, origin: nat, depth: nat, r: TraversalResult)
  {
    && !r.truncated
    && ExactNodes(g, arcs, origin, depth, r.nodes)
    && InducedEdges(g.edges, g.edges.Keys, Ball(arcs, origin, depth), r.edges)
    && GreatestDepth(r.nodes, r.maxDepthReached)
  }
}
