// Cache agreement across a commit: every record it does not re-evaluate would compute to the
// currentness it already has.
module CommitCache {
  import opened Types
  import opened Ordering
  import opened Digraph
  import opened GraphModel
  import opened StoreTypes
  import opened CurrentnessModel
  import opened Requests
  import opened CommitPipeline
  import opened Soundness
  import opened Admission
  import opened Insertions
  import opened Evolution
  import opened Rebinding
  import opened Settlement
  import opened Transition
  import opened LineageSteps
  import opened CommitSteps

  // ---------------------------------------------------------------------------------------
  // What the commit leaves alone
  // ---------------------------------------------------------------------------------------

  ghost predicate SameAt(g: Graph, h: Graph, id: nat) {
    id in g.nodes && id in h.nodes && h.nodes[id] == g.nodes[id]
  }

  lemma {:induction false} PromoteAllTouches(g: Graph, edges: seq<Edge>, id: nat)
    requires id in g.nodes && forall e :: e in edges && IsEvidenceRelation(e.etype) ==> e.to != id
    ensures SameAt(g, PromoteAll(g, edges), id)
    decreases |edges|
  {
    if edges != [] {
      var next := if IsEvidenceRelation(edges[0].etype) then Promote(g, edges[0].to) else g;
      assert SameAt(g, next, id);
      PromoteAllTouches(next, edges[1..], id);
    }
  }

  /** The edges a move adds are the successor edges a correction re-binds, and it changes no record
      but those it names. */
  ghost predicate Touches(g: Graph, moved: Moved, id: nat) {
    AllSuccessors(moved.edges) && (id !in moved.touched ==> SameAt(g, moved.graph, id))
  }

  lemma MoveTouches(env: Env, st: LineageState, g: Graph, edges: seq<Edge>, r: Request, node: Node, id: nat)
    requires r.kind != CorrectionKind && id in g.nodes
    ensures Touches(g, Move(env, st, g, edges, r, node), id)
  {
    hide DisplacedLifecycle;
  }

  lemma MoveCorrectionTouches(env: Env, st: LineageState, h: Graph, r: Request, node: Node, grown: Graph, id: nat)
    requires RebindsTo(env, h, r, node, grown) && r.target in grown.nodes && node.id != 0 && r.target != node.id
    requires r.kind == CorrectionKind && id in grown.nodes
    ensures Touches(grown, MoveCorrection(env, st, h, r, node), id)
  {
    hide RebindAll, EdgesAt, Sorted;
    CorrectionMarks(env, st, h, r, node, grown);
  }

  lemma MovedTouches(env: Env, s: Store, lin: Lineage, lid: nat, r: Request, node: Node, edges: seq<Edge>, id: nat)
    requires Ready(env, s, lin, lid, r, node, edges) && id in Grown(env, lin, r, node, edges).nodes
    ensures Touches(Grown(env, lin, r, node, edges), MovedOf(env, lin, r, node, edges), id)
  {
    hide Ready, Grown, Inserted, RebindsTo, MoveCorrection, MoveRouteState, MoveTarget, Touches;
    if r.kind == CorrectionKind {
      CorrectionGrown(env, s, lin, lid, r, node, edges);
      MoveCorrectionTouches(env, Bookkeep(lin.state, r), Inserted(lin, r, node, edges), r, node,
                            Grown(env, lin, r, node, edges), id);
    } else {
      GrownIsInserted(env, lin, r, node, edges);
      MoveTouches(env, Bookkeep(lin.state, r), Inserted(lin, r, node, edges), ReportedEdges(r, edges), r, node, id);
    }
  }

  lemma PromotedTouches(env: Env, lin: Lineage, r: Request, node: Node, edges: seq<Edge>, id: nat)
    requires AllSuccessors(MovedOf(env, lin, r, node, edges).edges)
    requires id in MovedOf(env, lin, r, node, edges).graph.nodes
    requires id !in Affected(r, node, ReportedEdges(r, edges), MovedOf(env, lin, r, node, edges))
    ensures SameAt(MovedOf(env, lin, r, node, edges).graph, PromotedOf(env, lin, r, node, edges), id)
  {
    hide Move, Inserted;
    var moved, reported := MovedOf(env, lin, r, node, edges), ReportedEdges(r, edges);
    if r.kind != LinkKind {
      var all := reported + moved.edges;
      forall e | e in all && IsEvidenceRelation(e.etype) ensures e.to != id {
        if e in reported {
          var i :| 0 <= i < |reported| && reported[i] == e;
          assert reported[i].to in HeadSet(reported);
        }
      }
      PromoteAllTouches(moved.graph, all, id);
    }
  }

  ghost function AffectedBy(env: Env, lin: Lineage, r: Request, node: Node, edges: seq<Edge>): set<nat>
  {
    Affected(r, node, ReportedEdges(r, edges), MovedOf(env, lin, r, node, edges))
  }

  lemma AffectedCovers(env: Env, lin: Lineage, r: Request, node: Node, edges: seq<Edge>)
    ensures MovedOf(env, lin, r, node, edges).touched <= AffectedBy(env, lin, r, node, edges)
    ensures r.kind != LinkKind ==> node.id in AffectedBy(env, lin, r, node, edges)
  {
    hide Move, Inserted, HeadSet;
  }

  /** A record that is not re-evaluated is, in every field, the record that was there before. */
  lemma UnaffectedUnchanged(env: Env, s: Store, lin: Lineage, lid: nat, r: Request, node: Node, edges: seq<Edge>,
                            id: nat)
    requires Ready(env, s, lin, lid, r, node, edges)
    requires id in PromotedOf(env, lin, r, node, edges).nodes && id !in AffectedBy(env, lin, r, node, edges)
    requires id in Grown(env, lin, r, node, edges).nodes && id in MovedOf(env, lin, r, node, edges).graph.nodes
    ensures SameAt(lin.graph, PromotedOf(env, lin, r, node, edges), id)
  {
    hide Ready, MovedOf, Grown, PromotedOf, NewEdge, Affected;
    MovedTouches(env, s, lin, lid, r, node, edges, id);
    AffectedCovers(env, lin, r, node, edges);
    PromotedTouches(env, lin, r, node, edges, id);
    GrownContents(env, s, lin, lid, r, node, edges);
  }

  // ---------------------------------------------------------------------------------------
  // Why an unchanged record still agrees
  // ---------------------------------------------------------------------------------------

  lemma StoreMarkIrrelevant(st: LineageState, n: Node, m: Watermarks, m': Watermarks, liveness: Liveness)
    requires m' == m.(store := m'.store)
    ensures Compute(st, n, m', liveness) == Compute(st, n, m, liveness)
  {
  }

  /** Currentness reads the lineage's lifecycle only to see whether it is retired, and its
      generation only against a live route state. */
  lemma SameStanding(st: LineageState, st': LineageState, n: Node, m: Watermarks, liveness: Liveness)
    requires st.lifecycle != RetiredLineage && st'.lifecycle != RetiredLineage
    requires IsLive(n.lifecycle) && n.IsRouteState() ==>
               (n.core.generation == st.generation <==> n.core.generation == st'.generation)
    ensures Compute(st', n, m, liveness) == Compute(st, n, m, liveness)
  {
  }

  /** A new route state re-evaluates the record it displaces. */
  lemma PreviousTouched(env: Env, lin: Lineage, r: Request, node: Node, edges: seq<Edge>)
    requires r.kind == RouteStateKind && node.id !in lin.graph.nodes
    requires lin.state.currentNode in lin.graph.nodes
    ensures lin.state.currentNode in AffectedBy(env, lin, r, node, edges)
  {
    hide HeadSet, UpdateNodeState, DisplacedLifecycle;
    WithEdgesContents(lin.graph.(nodes := lin.graph.nodes[node.id := node]), edges);
  }

  /** A live route state counts the same before and after. */
  predicate SameCount(st: LineageState, st': LineageState, n: Node) {
    IsLive(n.lifecycle) && n.IsRouteState() ==>
      (n.core.generation == st.generation <==> n.core.generation == st'.generation)
  }

  lemma UnaffectedStanding(env: Env, lin: Lineage, r: Request, node: Node, edges: seq<Edge>, n: Node,
                           st': LineageState)
    requires Advances(lin, r) && HoldsRecord(lin.graph, n)
    requires r.kind == RouteStateKind ==> node.id !in lin.graph.nodes
    requires Repositioned(lin.state, st', r, node) && n.id !in AffectedBy(env, lin, r, node, edges)
    ensures SameCount(lin.state, st', n)
  {
    hide AffectedBy;
    assert RouteStateWithin(lin.state, lin.graph.nodes[n.id]) && Displaced(lin.state, lin.graph.nodes[n.id]);
    if r.kind == RouteStateKind && lin.state.currentNode in lin.graph.nodes {
      PreviousTouched(env, lin, r, node, edges);
    }
  }

  lemma SameComputationAgrees(st: LineageState, st': LineageState, n: Node, m: Watermarks, m': Watermarks,
                              publishers: Registry)
    requires Agrees(st, n, m, publishers)
    requires Compute(st', n, m', LivenessOf(publishers, PublisherOf(n))) ==
             Compute(st, n, m, LivenessOf(publishers, PublisherOf(n)))
    ensures Agrees(st', n, m', publishers)
  {
    hide Compute;
  }

  /** A record the commit does not re-evaluate would compute to what it already has. */
  lemma UnaffectedAgrees(env: Env, lin: Lineage, r: Request, node: Node, edges: seq<Edge>, n: Node,
                         st': LineageState, m: Watermarks, m': Watermarks, publishers: Registry)
    requires Advances(lin, r) && HoldsRecord(lin.graph, n)
    requires r.kind == RouteStateKind ==> node.id !in lin.graph.nodes
    requires Repositioned(lin.state, st', r, node) && n.id !in AffectedBy(env, lin, r, node, edges)
    requires lin.state.lifecycle != RetiredLineage && st'.lifecycle != RetiredLineage
    requires m' == m.(store := m'.store) && Agrees(lin.state, n, m, publishers)
    ensures Agrees(st', n, m', publishers)
  {
    hide Advances, AffectedBy, Compute, Repositioned, Agrees, LivenessOf;
    UnaffectedStanding(env, lin, r, node, edges, n, st');
    SameStanding(lin.state, st', n, m, LivenessOf(publishers, PublisherOf(n)));
    StoreMarkIrrelevant(st', n, m, m', LivenessOf(publishers, PublisherOf(n)));
    SameComputationAgrees(lin.state, st', n, m, m', publishers);
  }

  // ---------------------------------------------------------------------------------------
  // The settled lineage agrees
  // ---------------------------------------------------------------------------------------

  ghost predicate AgreesAt(st: LineageState, g: Graph, m: Watermarks, publishers: Registry, id: nat) {
    id in g.nodes ==> Agrees(st, g.nodes[id], m, publishers)
  }

  lemma RefreshedAgrees(st: LineageState, g: Graph, m: Watermarks, publishers: Registry, ids: set<nat>, id: nat)
    requires id in ids || AgreesAt(st, g, m, publishers, id)
    ensures AgreesAt(st, Refresh(st, g, m, publishers, ids), m, publishers, id)
  {
  }

  lemma RecordPresentThroughout(env: Env, s: Store, lin: Lineage, lid: nat, r: Request, node: Node, edges: seq<Edge>,
                                marked: Store)
    requires Ready(env, s, lin, lid, r, node, edges)
    ensures
      var keys := Settled(env, marked, lin, r, node, edges).graph.nodes.Keys;
      && PromotedOf(env, lin, r, node, edges).nodes.Keys == keys
      && Grown(env, lin, r, node, edges).nodes.Keys == keys &&
         MovedOf(env, lin, r, node, edges).graph.nodes.Keys == keys
  {
    hide Ready, MovedOf, Grown, PromotedOf, Settled, NodesSound, Succeeds, Affected, Keys14, Recomputed;
    SettledSteady(env, s, lin, lid, r, node, edges, marked);
    SettledShape(env, marked, lin, r, node, edges);
    var settled := Settled(env, marked, lin, r, node, edges);
    assert settled.graph.nodes.Keys == PromotedOf(env, lin, r, node, edges).nodes.Keys;
  }

  ghost predicate LineageAgrees(lin: Lineage, m: Watermarks, publishers: Registry) {
    lin.state.lifecycle != RetiredLineage ==> AgreesOutside(lin.state, lin.graph, m, publishers, {})
  }

  lemma OpenAndNew(env: Env, s: Store, lin: Lineage, lid: nat, r: Request, node: Node, edges: seq<Edge>)
    requires Ready(env, s, lin, lid, r, node, edges)
    ensures r.kind != LinkKind ==> node.id !in lin.graph.nodes
    ensures lin.state.lifecycle != RetiredLineage && WellFormed(lin.graph)
  {
    hide LineageSound, NormalForm, Env.CollisionFree, BatchFits, BatchEdges, MatchesSpecs, StageLimits,
      StageFreshness, GoodRecord, LinkEdge;
    SoundIsWellFormed(env, lid, lin);
  }

  lemma SettledAgreesAt(env: Env, s: Store, lin: Lineage, lid: nat, r: Request, node: Node, edges: seq<Edge>, id: nat)
    requires Ready(env, s, lin, lid, r, node, edges) && Advances(lin, r)
    requires LineageAgrees(lin, s.marks, s.publishers)
    requires Settled(env, Marked(s), lin, r, node, edges).state.lifecycle != RetiredLineage
    ensures
      var settled := Settled(env, Marked(s), lin, r, node, edges);
      AgreesAt(settled.state, settled.graph, Marked(s).marks, s.publishers, id)
  {
    hide Ready, LineageSound, MovedOf, Grown, PromotedOf, Settled, Refresh, Agrees, Repositioned, Keys14, Advances,
      Counted, Affected;
    OpenAndNew(env, s, lin, lid, r, node, edges);
    SettledShape(env, Marked(s), lin, r, node, edges);
    SettledRepositions(env, Marked(s), lin, r, node, edges);
    RecordPresentThroughout(env, s, lin, lid, r, node, edges, Marked(s));
    var settled, promoted := Settled(env, Marked(s), lin, r, node, edges), PromotedOf(env, lin, r, node, edges);
    var ids := AffectedBy(env, lin, r, node, edges);
    if id in promoted.nodes && id !in ids {
      assert id in promoted.nodes.Keys;
      UnaffectedUnchanged(env, s, lin, lid, r, node, edges, id);
      UnaffectedAgrees(env, lin, r, node, edges, lin.graph.nodes[id], settled.state, s.marks, Marked(s).marks,
                       s.publishers);
    }
    RefreshedAgrees(settled.state, promoted, Marked(s).marks, s.publishers, ids, id);
  }

  /** A commit re-evaluates every record whose currentness it changes. */
  lemma SettledAgrees(env: Env, s: Store, lin: Lineage, lid: nat, r: Request, node: Node, edges: seq<Edge>)
    requires Ready(env, s, lin, lid, r, node, edges) && Advances(lin, r)
    requires LineageAgrees(lin, s.marks, s.publishers)
    ensures LineageAgrees(Settled(env, Marked(s), lin, r, node, edges), Marked(s).marks, s.publishers)
  {
    hide Ready, Settled, Agrees, Advances;
    var settled := Settled(env, Marked(s), lin, r, node, edges);
    if settled.state.lifecycle != RetiredLineage {
      forall id | id in settled.graph.nodes
        ensures Agrees(settled.state, settled.graph.nodes[id], Marked(s).marks, s.publishers)
      {
        SettledAgreesAt(env, s, lin, lid, r, node, edges, id);
        assert AgreesAt(settled.state, settled.graph, Marked(s).marks, s.publishers, id);
      }
    }
  }
}
