// All or nothing: an admitted batch is inserted completely. The new record has no edges yet, so
// a batch that only leaves it, or only enters it, cannot close a cycle.
module Insertions {
  import opened Types
  import opened Digraph
  import opened GraphModel
  import opened StoreTypes
  import opened Requests
  import opened CommitPipeline
  import opened Soundness
  import opened Admission

  function CountTo(edges: seq<Edge>, n: nat): nat {
    if edges == [] then 0 else (if edges[0].to == n then 1 else 0) + CountTo(edges[1..], n)
  }

  function CountFrom(edges: seq<Edge>, n: nat): nat {
    if edges == [] then 0 else (if edges[0].from == n then 1 else 0) + CountFrom(edges[1..], n)
  }

  /** The edge bound and the degree bounds of the records the batch touches have room for it. */
  ghost predicate Room(g: Graph, edges: seq<Edge>, limits: Limits) {
    && |g.edges| + |edges| <= limits.maxEdges
    && (forall n :: CountTo(edges, n) > 0 ==>
          |EdgesAt(g, Incoming, n)| + CountTo(edges, n) <= limits.maxParents)
    && (forall n :: CountFrom(edges, n) > 0 ==>
          |EdgesAt(g, Outgoing, n)| + CountFrom(edges, n) <= limits.maxChildren)
  }

  /** An edge between the new record, on the given side, and another present record. */
  ghost predicate Spoke(env: Env, g: Graph, id: nat, outward: bool, e: Edge) {
    && e == env.FinalizeEdge(e) && ValidateEdge(e) == Ok
    && e.from in g.nodes && e.to in g.nodes && g.nodes[e.from].core.lineage == e.lineage
    && (if outward then e.from == id else e.to == id)
  }

  /** Nothing enters (or leaves) the new record. */
  ghost predicate OneSided(g: Graph, id: nat, outward: bool) {
    forall e :: e in g.edges ==> if outward then g.edges[e].to != id else g.edges[e].from != id
  }

  ghost predicate AllFinal(env: Env, g: Graph) {
    forall e :: e in g.edges ==> g.edges[e] == env.FinalizeEdge(g.edges[e]) && g.edges[e].id == e
  }

  function WithEdges(g: Graph, edges: seq<Edge>): Graph
    decreases |edges|
  {
    if edges == [] then g
    else WithEdges(if edges[0].id in g.edges then g else WithEdge(g, edges[0]), edges[1..])
  }

  lemma NothingReachesSource(arcs: Arcs, t: nat, id: nat)
    requires forall u, v :: (u, v) in arcs ==> v != id
    ensures Reaches(arcs, t, id) ==> t == id
  {
    if p :| PathBetween(arcs, p, t, id) {
      if |p| > 1 {
        FirstAndLastArc(arcs, p);
      }
    }
  }

  lemma SinkReachesNothing(arcs: Arcs, t: nat, id: nat)
    requires forall u, v :: (u, v) in arcs ==> u != id
    ensures Reaches(arcs, id, t) ==> t == id
  {
    if p :| PathBetween(arcs, p, id, t) {
      if |p| > 1 {
        FirstAndLastArc(arcs, p);
      }
    }
  }

  lemma SpokeIsAcyclic(env: Env, g: Graph, id: nat, outward: bool, e: Edge)
    requires OneSided(g, id, outward) && Spoke(env, g, id, outward, e)
    ensures CheckAddEdge(g, e.from, e.to) == Ok
  {
    if outward {
      NothingReachesSource(EdgeArcs(g), e.to, id);
    } else {
      SinkReachesNothing(EdgeArcs(g), e.from, id);
    }
  }

  lemma SameIdSameCore(env: Env, g: Graph, e: Edge)
    requires env.CollisionFree() && AllFinal(env, g) && e == env.FinalizeEdge(e) && e.id in g.edges
    ensures SameEdgeCore(g.edges[e.id], e)
  {
    var f := g.edges[e.id];
    assert env.edgeIdOf(EdgeIdentity(f.lineage, f.derivation, f.etype, f.from, f.to)) == f.id;
    assert env.edgeIdOf(EdgeIdentity(e.lineage, e.derivation, e.etype, e.from, e.to)) == e.id;
  }

  lemma SpokeOutcome(env: Env, g: Graph, id: nat, outward: bool, edges: seq<Edge>, limits: Limits)
    requires env.CollisionFree() && AllFinal(env, g) && edges != []
    requires OneSided(g, id, outward) && Spoke(env, g, id, outward, edges[0])
    requires edges[0].id !in g.edges ==> Room(g, edges, limits)
    ensures AddEdgeOutcome(g, edges[0], limits) == if edges[0].id in g.edges then Duplicate else Ok
  {
    hide Env.FinalizeEdge, CheckAddEdge, Env.CollisionFree, AllFinal;
    var e := edges[0];
    SpokeIsAcyclic(env, g, id, outward, e);
    if e.id in g.edges {
      SameIdSameCore(env, g, e);
    } else {
      assert CountTo(edges, e.to) > 0 && CountFrom(edges, e.from) > 0;
    }
  }

  lemma DegreeWithEdge(g: Graph, d: Direction, e: Edge, n: nat)
    requires e.id !in g.edges
    ensures |EdgesAt(WithEdge(g, e), d, n)| == |EdgesAt(g, d, n)| + if Tail(e, d) == n then 1 else 0
  {
    hide Tail;
    var before, after := EdgesAt(g, d, n), EdgesAt(WithEdge(g, e), d, n);
    forall k ensures k in after <==> k in before || (k == e.id && Tail(e, d) == n) {
    }
    assert e.id !in before;
    if Tail(e, d) == n {
      assert after == before + {e.id};
    } else {
      assert after == before;
    }
  }

  lemma RoomAfter(g: Graph, edges: seq<Edge>, limits: Limits)
    requires edges != [] && Room(g, edges, limits)
    ensures Room(g, edges[1..], limits)
    ensures edges[0].id !in g.edges ==> Room(WithEdge(g, edges[0]), edges[1..], limits)
  {
    if edges[0].id !in g.edges {
      var h := WithEdge(g, edges[0]);
      forall n | CountTo(edges[1..], n) > 0
        ensures |EdgesAt(h, Incoming, n)| + CountTo(edges[1..], n) <= limits.maxParents
      {
        DegreeWithEdge(g, Incoming, edges[0], n);
        assert CountTo(edges, n) > 0;
      }
      forall n | CountFrom(edges[1..], n) > 0
        ensures |EdgesAt(h, Outgoing, n)| + CountFrom(edges[1..], n) <= limits.maxChildren
      {
        DegreeWithEdge(g, Outgoing, edges[0], n);
        assert CountFrom(edges, n) > 0;
      }
    }
  }

  ghost predicate Spokes(env: Env, g: Graph, id: nat, outward: bool, edges: seq<Edge>) {
    forall i :: 0 <= i < |edges| ==> Spoke(env, g, id, outward, edges[i])
  }

  /** Where a batch is being inserted. */
  ghost predicate Hub(env: Env, g: Graph, id: nat, outward: bool, edges: seq<Edge>) {
    IsDag(g) && AllFinal(env, g) && OneSided(g, id, outward) && Spokes(env, g, id, outward, edges)
  }

  lemma SpokesAfter(env: Env, g: Graph, id: nat, outward: bool, edges: seq<Edge>, e: Edge)
    requires Spokes(env, g, id, outward, edges)
    ensures Spokes(env, WithEdge(g, e), id, outward, edges)
  {
    hide Env.FinalizeEdge, ValidateEdge;
    forall i | 0 <= i < |edges| ensures Spoke(env, WithEdge(g, e), id, outward, edges[i]) {
      assert Spoke(env, g, id, outward, edges[i]);
    }
  }

  lemma OneSidedAfter(env: Env, g: Graph, id: nat, outward: bool, e: Edge)
    requires AllFinal(env, g) && OneSided(g, id, outward) && Spoke(env, g, id, outward, e)
    requires e.id !in g.edges
    ensures AllFinal(env, WithEdge(g, e)) && OneSided(WithEdge(g, e), id, outward)
  {
    hide Env.FinalizeEdge;
  }

  lemma DagAfter(env: Env, g: Graph, id: nat, outward: bool, e: Edge)
    requires IsDag(g) && OneSided(g, id, outward) && Spoke(env, g, id, outward, e)
    requires e.id !in g.edges
    ensures IsDag(WithEdge(g, e))
  {
    hide Env.FinalizeEdge, Reaches, Acyclic, OneSided, EdgeArcs;
    SpokeIsAcyclic(env, g, id, outward, e);
    ArcsWithEdge(g, e);
    AddArcAcyclic(EdgeArcs(g), e.from, e.to);
  }

  lemma HubAfter(env: Env, g: Graph, id: nat, outward: bool, edges: seq<Edge>)
    requires edges != [] && Hub(env, g, id, outward, edges)
    ensures Hub(env, g, id, outward, edges[1..])
    ensures edges[0].id !in g.edges ==> Hub(env, WithEdge(g, edges[0]), id, outward, edges[1..])
  {
    hide Spoke, IsDag, AllFinal, OneSided;
    var e := edges[0];
    assert Spoke(env, g, id, outward, e);
    assert Spokes(env, g, id, outward, edges[1..]);
    if e.id !in g.edges {
      SpokesAfter(env, g, id, outward, edges[1..], e);
      OneSidedAfter(env, g, id, outward, e);
      DagAfter(env, g, id, outward, e);
    }
  }

  /** Every edge of the batch is inserted or is the repetition of one that was. */
  lemma {:induction false} InsertEdgesComplete(env: Env, g: Graph, id: nat, outward: bool, edges: seq<Edge>,
                                               limits: Limits, outcome: Outcome)
    requires env.CollisionFree() && Hub(env, g, id, outward, edges) && Room(g, edges, limits)
    requires outcome != Duplicate
    ensures
      var ins := InsertEdges(g, edges, limits, outcome);
      ins.refused == Ok && ins.outcome == outcome && ins.graph == WithEdges(g, edges)
    ensures Hub(env, WithEdges(g, edges), id, outward, [])
    decreases |edges|
  {
    hide Room, AddEdgeOutcome, Hub, Env.CollisionFree;
    HubHead(env, g, id, outward, edges);
    if edges != [] {
      SpokeOutcome(env, g, id, outward, edges, limits);
      RoomAfter(g, edges, limits);
      HubAfter(env, g, id, outward, edges);
      var next := if edges[0].id in g.edges then g else WithEdge(g, edges[0]);
      InsertEdgesComplete(env, next, id, outward, edges[1..], limits, outcome);
    }
  }

  lemma HubHead(env: Env, g: Graph, id: nat, outward: bool, edges: seq<Edge>)
    requires Hub(env, g, id, outward, edges)
    ensures AllFinal(env, g) && OneSided(g, id, outward) && Hub(env, g, id, outward, [])
    ensures edges != [] ==> Spoke(env, g, id, outward, edges[0])
  {
  }

  // ---------------------------------------------------------------------------------------
  // An admitted batch
  // ---------------------------------------------------------------------------------------

  predicate AllOutward(edges: seq<Edge>) {
    forall i :: 0 <= i < |edges| ==> FromNewNode(edges[i].etype)
  }

  predicate AllInward(edges: seq<Edge>) {
    forall i :: 0 <= i < |edges| ==> !FromNewNode(edges[i].etype)
  }

  lemma AddFreshNode(env: Env, s: Store, lin: Lineage, lid: nat, r: Request, node: Node, edges: seq<Edge>)
    requires Admitted(env, s, lin, lid, r, node, edges) && r.kind != LinkKind
    ensures node.id != 0 ==> AddNodeOutcome(lin.graph, node, env.limits) == Ok
  {
    hide BatchEdges, MatchesSpecs, CanonCore;
  }

  lemma AdmittedHub(env: Env, s: Store, lin: Lineage, lid: nat, r: Request, node: Node, edges: seq<Edge>,
                    outward: bool)
    requires LineageSound(env, lid, lin) && Admitted(env, s, lin, lid, r, node, edges)
    requires r.kind != LinkKind && node.id != 0
    requires if outward then AllOutward(edges) else AllInward(edges)
    ensures Hub(env, AddNode(lin.graph, node, env.limits), node.id, outward, edges)
  {
    hide LineageSound, Admitted, IsDag, AllFinal, OneSided, Spoke;
    var g := lin.graph;
    AddFreshNode(env, s, lin, lid, r, node, edges);
    SoundIsWellFormed(env, lid, lin);
    AddNodeKeepsDag(g, node, env.limits);
    FreshNodeIsIsolated(env, lid, lin, node, env.limits, outward);
    forall i | 0 <= i < |edges|
      ensures Spoke(env, AddNode(g, node, env.limits), node.id, outward, edges[i])
    {
      AdmittedSpoke(env, s, lin, lid, r, node, edges, outward, i);
    }
  }

  lemma FreshNodeIsIsolated(env: Env, lid: nat, lin: Lineage, node: Node, limits: Limits, outward: bool)
    requires LineageSound(env, lid, lin) && AddNodeOutcome(lin.graph, node, limits) == Ok
    ensures AllFinal(env, AddNode(lin.graph, node, limits))
    ensures OneSided(AddNode(lin.graph, node, limits), node.id, outward)
  {
    hide CurrentPresent, CountsExact, LedgerSound, NodesSound, Acyclic, Env.FinalizeEdge, ValidateEdge;
    forall e | e in lin.graph.edges ensures EdgeSound(env, lid, lin.attempts.Keys, lin.graph.edges[e]) {
    }
  }

  lemma AdmittedSpoke(env: Env, s: Store, lin: Lineage, lid: nat, r: Request, node: Node, edges: seq<Edge>,
                      outward: bool, i: nat)
    requires LineageSound(env, lid, lin) && Admitted(env, s, lin, lid, r, node, edges)
    requires r.kind != LinkKind && i < |edges|
    requires AddNodeOutcome(lin.graph, node, env.limits) == Ok
    requires if outward then AllOutward(edges) else AllInward(edges)
    ensures Spoke(env, AddNode(lin.graph, node, env.limits), node.id, outward, edges[i])
  {
    hide LineageSound, GoodRecord, Env.FinalizeEdge, ValidateEdge, StageLimits, StageFreshness, AddNodeOutcome;
    AdmittedNodeLineage(env, s, lin, lid, r, node, edges);
    assert BatchEdge(env, lid, lin.graph, r, node, edges[i]);
    if edges[i].from in lin.graph.nodes {
      TargetSound(env, lid, lin, edges[i].from);
    }
  }

  lemma AdmittedNodeLineage(env: Env, s: Store, lin: Lineage, lid: nat, r: Request, node: Node, edges: seq<Edge>)
    requires Admitted(env, s, lin, lid, r, node, edges) && r.kind != LinkKind
    ensures node.core.lineage == lid
  {
  }

  lemma SameRoomWithNode(g: Graph, h: Graph, edges: seq<Edge>, limits: Limits)
    requires g.edges == h.edges && Room(g, edges, limits)
    ensures Room(h, edges, limits)
  {
    assert forall d, n :: EdgesAt(h, d, n) == EdgesAt(g, d, n);
  }

  /** All or nothing: the record of an admitted request and all its edges are inserted. */
  lemma AdmittedBatchIsInserted(env: Env, s: Store, lin: Lineage, lid: nat, r: Request, node: Node,
                                edges: seq<Edge>, outward: bool)
    requires env.CollisionFree() && LineageSound(env, lid, lin)
    requires Admitted(env, s, lin, lid, r, node, edges) && r.kind != LinkKind
    requires if outward then AllOutward(edges) else AllInward(edges)
    requires Room(lin.graph, edges, env.limits)
    ensures
      var ins := InsertBatch(lin.graph, r, node, edges, env.limits);
      var h := lin.graph.(nodes := lin.graph.nodes[node.id := node]);
      && ins == Insertion(WithEdges(h, edges), Created, edges, Ok)
      && Hub(env, ins.graph, node.id, outward, [])
  {
    hide LineageSound, Admitted, Room, Hub, Env.CollisionFree;
    RecordIdIsValid(env, s, lin, lid, r, node, edges);
    AddFreshNode(env, s, lin, lid, r, node, edges);
    AdmittedHub(env, s, lin, lid, r, node, edges, outward);
    var h := AddNode(lin.graph, node, env.limits);
    SameRoomWithNode(lin.graph, h, edges, env.limits);
    InsertEdgesComplete(env, h, node.id, outward, edges, env.limits, Created);
  }

  lemma RecordIdIsValid(env: Env, s: Store, lin: Lineage, lid: nat, r: Request, node: Node, edges: seq<Edge>)
    requires env.CollisionFree() && Admitted(env, s, lin, lid, r, node, edges) && r.kind != LinkKind
    ensures node.id != 0 && node.id !in lin.graph.nodes
  {
    hide BatchEdges, MatchesSpecs;
  }

  /** An admitted link is inserted when its ends have room. */
  lemma AdmittedLinkIsInserted(env: Env, s: Store, lin: Lineage, lid: nat, r: Request, node: Node, edge: Edge)
    requires LineageSound(env, lid, lin) && Admitted(env, s, lin, lid, r, node, [edge])
    requires r.kind == LinkKind && Room(lin.graph, [edge], env.limits)
    ensures InsertBatch(lin.graph, r, node, [edge], env.limits) ==
            Insertion(WithEdge(lin.graph, edge), Linked, [edge, edge], Ok)
    ensures IsDag(WithEdge(lin.graph, edge))
  {
    hide CurrentPresent, CountsExact, LedgerSound, Acyclic, EdgeArcs, HasOrigin, Env.FinalizeEdge, CanonCore,
      CheckAddEdge, StageFreshness;
    NodeIsSound(env, lid, lin, edge.from);
    assert CountTo([edge], edge.to) > 0 && CountFrom([edge], edge.from) > 0;
    assert AddEdgeOutcome(lin.graph, edge, env.limits) == Ok;
    AddEdgeKeepsDag(lin.graph, edge, env.limits);
  }

  // ---------------------------------------------------------------------------------------
  // Contents
  // ---------------------------------------------------------------------------------------

  /** Inserting a batch adds exactly its edges and touches no record. */
  lemma {:induction false} WithEdgesContents(g: Graph, edges: seq<Edge>)
    ensures
      var h := WithEdges(g, edges);
      && h.nodes == g.nodes
      && (forall e :: e in g.edges ==> e in h.edges && h.edges[e] == g.edges[e])
      && (forall e :: e in h.edges && e !in g.edges ==>
            exists i :: 0 <= i < |edges| && edges[i].id == e && h.edges[e] == edges[i])
      && (forall i :: 0 <= i < |edges| ==> edges[i].id in h.edges)
    decreases |edges|
  {
    if edges != [] {
      var next := if edges[0].id in g.edges then g else WithEdge(g, edges[0]);
      WithEdgesContents(next, edges[1..]);
      var h := WithEdges(g, edges);
      assert edges[0].id in next.edges;
      forall e | e in h.edges && e !in g.edges
        ensures exists i :: 0 <= i < |edges| && edges[i].id == e && h.edges[e] == edges[i]
      {
        if e in next.edges {
          assert edges[0].id == e && h.edges[e] == edges[0];
        } else {
          var i :| 0 <= i < |edges[1..]| && edges[1..][i].id == e && h.edges[e] == edges[1..][i];
          assert edges[i + 1].id == e;
        }
      }
      forall i | 0 <= i < |edges| ensures edges[i].id in h.edges {
        if i > 0 {
          assert edges[1..][i - 1].id in h.edges;
        }
      }
    }
  }
}
