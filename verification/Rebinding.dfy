// A correction re-binds its target's causes: the replacement gets the target's successor edges.
module Rebinding {
  import opened Types
  import opened Ordering
  import opened Digraph
  import opened GraphModel
  import opened StoreTypes
  import opened Requests
  import opened CommitPipeline
  import opened Soundness
  import opened Admission
  import opened Insertions
  import opened Evolution

  /** The edges a correction re-binds, in the order it does. */
  function Rebounds(env: Env, g: Graph, ids: seq<nat>, from: nat, authority: Authority): seq<Edge> {
    if ids == [] then []
    else
      var rest := Rebounds(env, g, ids[1..], from, authority);
      if ids[0] in g.edges && IsSuccessorRelation(g.edges[ids[0]].etype)
      then [Rebound(env, g.edges[ids[0]], from, authority)] + rest
      else rest
  }

  function OutgoingIds(g: Graph, id: nat): seq<nat> {
    Sorted(EdgesAt(g, Outgoing, id))
  }

  function ReboundEdges(env: Env, g: Graph, r: Request, node: Node): seq<Edge> {
    if r.kind == CorrectionKind
    then Rebounds(env, g, OutgoingIds(g, r.target), node.id, r.authority)
    else []
  }

  /** The room a batch needs, with the edges a correction will re-bind, and the uniform direction
      that keeps the new record free of cycles. The program checks neither before it starts. */
  ghost predicate BatchFits(env: Env, lin: Lineage, r: Request, node: Node, edges: seq<Edge>) {
    && (r.kind == LinkKind || AllOutward(edges) || AllInward(edges))
    && Room(lin.graph, edges + ReboundEdges(env, lin.graph, r, node), env.limits)
  }

  lemma {:induction false} CountsConcat(a: seq<Edge>, b: seq<Edge>, n: nat)
    ensures CountTo(a + b, n) == CountTo(a, n) + CountTo(b, n)
    ensures CountFrom(a + b, n) == CountFrom(a, n) + CountFrom(b, n)
    decreases |a|
  {
    if a == [] {
      assert a + b == b;
    } else {
      assert (a + b)[1..] == a[1..] + b;
      CountsConcat(a[1..], b, n);
    }
  }

  lemma RoomForFirst(g: Graph, a: seq<Edge>, b: seq<Edge>, limits: Limits)
    requires Room(g, a + b, limits)
    ensures Room(g, a, limits)
  {
    forall n ensures CountTo(a + b, n) == CountTo(a, n) + CountTo(b, n) {
      CountsConcat(a, b, n);
    }
    forall n ensures CountFrom(a + b, n) == CountFrom(a, n) + CountFrom(b, n) {
      CountsConcat(a, b, n);
    }
  }

  lemma {:induction false} RoomForSecond(g: Graph, a: seq<Edge>, b: seq<Edge>, limits: Limits)
    requires Room(g, a + b, limits)
    ensures Room(WithEdges(g, a), b, limits)
    decreases |a|
  {
    hide Room;
    if a == [] {
      assert a + b == b;
    } else {
      RoomAfter(g, a + b, limits);
      assert (a + b)[1..] == a[1..] + b && (a + b)[0] == a[0];
      RoomForSecond(if a[0].id in g.edges then g else WithEdge(g, a[0]), a[1..], b, limits);
    }
  }

  lemma ReboundSpoke(env: Env, g: Graph, id: nat, e: Edge, authority: Authority)
    requires WellFormed(g) && id in g.nodes && g.nodes[id].core.lineage == e.lineage
    requires ValidateEdge(e) == Ok && e.to in g.nodes && e.to != id
    ensures Spoke(env, g, id, true, Rebound(env, e, id, authority))
  {
    FinalizeIdempotent(env, e.(from := id, authority := authority));
  }

  lemma HubStep(env: Env, g: Graph, id: nat, edges: seq<Edge>)
    requires env.CollisionFree() && edges != [] && Hub(env, g, id, true, edges) && Room(g, edges, env.limits)
    ensures AddEdgeOutcome(g, edges[0], env.limits) == if edges[0].id in g.edges then Duplicate else Ok
    ensures
      var next := if edges[0].id in g.edges then g else WithEdge(g, edges[0]);
      Hub(env, next, id, true, edges[1..]) && Room(next, edges[1..], env.limits)
  {
    hide Hub, Room, AddEdgeOutcome, Env.CollisionFree, Spoke;
    HubHead(env, g, id, true, edges);
    SpokeOutcome(env, g, id, true, edges, env.limits);
    RoomAfter(g, edges, env.limits);
    HubAfter(env, g, id, true, edges);
  }

  predicate AllSuccessors(edges: seq<Edge>) {
    forall e :: e in edges ==> IsSuccessorRelation(e.etype)
  }

  /** Re-binding adds every successor edge of the corrected record, on the replacement. */
  lemma {:induction false} RebindComplete(env: Env, original: Graph, g: Graph, ids: seq<nat>, id: nat,
                                          authority: Authority)
    requires env.CollisionFree()
    requires Hub(env, g, id, true, Rebounds(env, original, ids, id, authority))
    requires Room(g, Rebounds(env, original, ids, id, authority), env.limits)
    ensures RebindAll(env, original, g, ids, id, authority).graph ==
            WithEdges(g, Rebounds(env, original, ids, id, authority))
    ensures Hub(env, WithEdges(g, Rebounds(env, original, ids, id, authority)), id, true, [])
    ensures AllSuccessors(RebindAll(env, original, g, ids, id, authority).edges)
    decreases |ids|
  {
    hide Hub, Room, AddEdgeOutcome, Env.CollisionFree, Env.FinalizeEdge, Rebound;
    var edges := Rebounds(env, original, ids, id, authority);
    if ids == [] {
      HubHead(env, g, id, true, edges);
    } else if ids[0] in original.edges && IsSuccessorRelation(original.edges[ids[0]].etype) {
      assert edges[1..] == Rebounds(env, original, ids[1..], id, authority);
      var next := if edges[0].id in g.edges then g else WithEdge(g, edges[0]);
      HubStep(env, g, id, edges);
      ReboundType(env, original.edges[ids[0]], id, authority);
      RebindComplete(env, original, next, ids[1..], id, authority);
    } else {
      RebindComplete(env, original, g, ids[1..], id, authority);
    }
  }

  lemma ReboundType(env: Env, e: Edge, id: nat, authority: Authority)
    ensures
      var b := Rebound(env, e, id, authority);
      && b.etype == e.etype && b.to == e.to && b.from == id && b.authority == authority
      && b.lineage == e.lineage && b.predecessor == e.predecessor && b.successor == e.successor
  {
  }

  ghost predicate ReboundFrom(env: Env, g: Graph, ids: seq<nat>, id: nat, authority: Authority, b: Edge) {
    exists e :: e in ids && e in g.edges && IsSuccessorRelation(g.edges[e].etype) &&
                b == Rebound(env, g.edges[e], id, authority)
  }

  /** The re-bound edges are exactly the successor edges among the listed ones, re-bound. */
  lemma {:induction false} ReboundsContents(env: Env, g: Graph, ids: seq<nat>, id: nat, authority: Authority, b: Edge)
    ensures b in Rebounds(env, g, ids, id, authority) <==> ReboundFrom(env, g, ids, id, authority, b)
    decreases |ids|
  {
    hide Rebound;
    if ids != [] {
      ReboundsContents(env, g, ids[1..], id, authority, b);
      assert ids == [ids[0]] + ids[1..];
    }
  }

  /** The edge e of a graph, re-bound by the correction. */
  predicate IsReboundOf(env: Env, g: Graph, r: Request, node: Node, e: nat, b: Edge) {
    && e in g.edges && IsSuccessorRelation(g.edges[e].etype) && g.edges[e].from == r.target
    && b == Rebound(env, g.edges[e], node.id, r.authority)
  }

  /** A correction re-binds exactly the successor edges of its target. */
  lemma ReboundEdgesContents(env: Env, g: Graph, r: Request, node: Node, b: Edge)
    requires r.kind == CorrectionKind
    ensures b in ReboundEdges(env, g, r, node) <==> exists e :: IsReboundOf(env, g, r, node, e, b)
  {
    hide Rebound, Rebounds, Sorted;
    ReboundsContents(env, g, OutgoingIds(g, r.target), node.id, r.authority, b);
    SortedMembers(EdgesAt(g, Outgoing, r.target));
    if e :| IsReboundOf(env, g, r, node, e, b) {
      assert e in OutgoingIds(g, r.target);
    }
    if b in ReboundEdges(env, g, r, node) {
      var e :| e in OutgoingIds(g, r.target) && e in g.edges && IsSuccessorRelation(g.edges[e].etype) &&
               b == Rebound(env, g.edges[e], node.id, r.authority);
      assert IsReboundOf(env, g, r, node, e, b);
    }
  }
}
