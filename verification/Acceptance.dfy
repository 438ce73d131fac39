// When a publication is accepted: an authorised caller, a fresh attempt on an open lineage with
// room, and a record whose one edge leads to a present record. Such a publication also meets what
// the theorems about runs assume of its caller, so they are not about nothing.
module Acceptance {
  import opened Types
  import opened Ordering
  import opened Digraph
  import opened GraphModel
  import opened StoreTypes
  import opened CurrentnessModel
  import opened Requests
  import opened CommitPipeline
  import opened Soundness
  import opened Admission
  import opened Insertions
  import opened Evolution
  import opened Rebinding
  import opened Settlement
  import opened Transition
  import opened LineageSteps
  import opened CommitSteps
  import opened Progress

  // ---------------------------------------------------------------------------------------
  // Room
  // ---------------------------------------------------------------------------------------

  /** Room for one more record with one edge, and for as many re-bound edges as there are edges. */
  predicate Spacious(limits: Limits, lin: Lineage) {
    && limits.maxBatch > 0 && |lin.graph.nodes| < limits.maxNodes
    && 2 * |lin.graph.edges| < limits.maxEdges && 2 * |lin.graph.edges| < limits.maxParents
    && 2 * |lin.graph.edges| < limits.maxChildren
    && lin.state.historyCount < limits.maxHistory && |lin.attempts| < limits.maxAttempts
  }

  lemma {:induction false} CountsBounded(edges: seq<Edge>, n: nat)
    ensures CountTo(edges, n) <= |edges| && CountFrom(edges, n) <= |edges|
    decreases |edges|
  {
    if edges != [] {
      CountsBounded(edges[1..], n);
    }
  }

  lemma DegreeBounded(g: Graph, d: Direction, n: nat)
    ensures |EdgesAt(g, d, n)| <= |g.edges|
  {
    SubsetSize(EdgesAt(g, d, n), g.edges.Keys);
    assert |g.edges.Keys| == |g.edges|;
  }

  lemma RoomBySize(g: Graph, edges: seq<Edge>, limits: Limits)
    requires |g.edges| + |edges| <= limits.maxEdges && |g.edges| + |edges| <= limits.maxParents
    requires |g.edges| + |edges| <= limits.maxChildren
    ensures Room(g, edges, limits)
  {
    hide EdgesAt;
    forall n ensures |EdgesAt(g, Incoming, n)| + CountTo(edges, n) <= limits.maxParents {
      DegreeBounded(g, Incoming, n);
      CountsBounded(edges, n);
    }
    forall n ensures |EdgesAt(g, Outgoing, n)| + CountFrom(edges, n) <= limits.maxChildren {
      DegreeBounded(g, Outgoing, n);
      CountsBounded(edges, n);
    }
  }

  lemma {:induction false} ReboundsCount(env: Env, g: Graph, ids: seq<nat>, from: nat, authority: Authority)
    ensures |Rebounds(env, g, ids, from, authority)| <= |ids|
    decreases |ids|
  {
    hide Rebound;
    if ids != [] {
      ReboundsCount(env, g, ids[1..], from, authority);
    }
  }

  lemma ReboundEdgesCount(env: Env, g: Graph, r: Request, node: Node)
    ensures |ReboundEdges(env, g, r, node)| <= |g.edges|
  {
    hide Rebounds, EdgesAt;
    if r.kind == CorrectionKind {
      ReboundsCount(env, g, OutgoingIds(g, r.target), node.id, r.authority);
      DegreeBounded(g, Outgoing, r.target);
    }
  }

  lemma BatchHasRoom(env: Env, lin: Lineage, r: Request, node: Node, edges: seq<Edge>)
    requires Spacious(env.limits, lin) && |edges| <= 1 && (r.kind == LinkKind || AllOutward(edges))
    ensures BatchFits(env, lin, r, node, edges)
  {
    hide Room, ReboundEdges;
    ReboundEdgesCount(env, lin.graph, r, node);
    RoomBySize(lin.graph, edges + ReboundEdges(env, lin.graph, r, node), env.limits);
  }

  // ---------------------------------------------------------------------------------------
  // Stages 7 to 13
  // ---------------------------------------------------------------------------------------

  /** The request asks for one edge from the new record to this present one. */
  predicate Aims(lin: Lineage, r: Request, spec: EdgeSpec, t: Node, node: Node) {
    && r.edges == [spec] && r.kind != LinkKind && FromNewNode(spec.etype) && spec.target == t.id
    && HoldsRecord(lin.graph, t)
    && (IsSuccessorRelation(spec.etype) ==> t.IsRouteState() && 0 < t.core.generation < node.core.generation)
  }

  function OneEdge(env: Env, lid: nat, r: Request, node: Node, t: Node, spec: EdgeSpec): Edge {
    env.FinalizeEdge(RawEdge(lid, r, node, t, spec))
  }

  lemma OneEdgeChecked(env: Env, s: Store, lin: Lineage, lid: nat, r: Request, node: Node, spec: EdgeSpec, t: Node)
    requires lid != 0 && node.id != 0 && node.id !in lin.graph.nodes && WellFormed(lin.graph)
    requires Aims(lin, r, spec, t, node) && Spacious(env.limits, lin)
    requires StageFreshness(s.marks, node.core.bindings) == Ok
    ensures StageChecks(env, s, lin, lid, r, node) == Proceed(node, [OneEdge(env, lid, r, node, t, spec)])
    ensures AllOutward([OneEdge(env, lid, r, node, t, spec)])
  {
    hide StageFreshness, WellFormed, Reaches;
    var e := OneEdge(env, lid, r, node, t, spec);
    assert r.edges[1..] == [] && [e] + [] == [e];
    OneEdgeBuilt(env, s, lin, lid, r, node, spec, t);
    assert BuildEdges(env, s, lin.graph, lid, r, node, []) == Success([]);
  }

  lemma OneEdgeBuilt(env: Env, s: Store, lin: Lineage, lid: nat, r: Request, node: Node, spec: EdgeSpec, t: Node)
    requires lid != 0 && node.id != 0 && node.id !in lin.graph.nodes && WellFormed(lin.graph)
    requires Aims(lin, r, spec, t, node)
    ensures BuildEdge(env, s, lin.graph, lid, r, node, spec) == Success(OneEdge(env, lid, r, node, t, spec))
    ensures OneEdge(env, lid, r, node, t, spec).from == node.id && OneEdge(env, lid, r, node, t, spec).to == t.id
    ensures OneEdge(env, lid, r, node, t, spec).etype == spec.etype
  {
    hide Reaches;
  }

  lemma NoEdgeChecked(env: Env, s: Store, lin: Lineage, lid: nat, r: Request, node: Node)
    requires r.kind != LinkKind && r.edges == [] && Spacious(env.limits, lin)
    requires StageFreshness(s.marks, node.core.bindings) == Ok
    ensures StageChecks(env, s, lin, lid, r, node) == Proceed(node, [])
  {
    hide StageFreshness;
    assert BuildEdges(env, s, lin.graph, lid, r, node, []) == Success([]);
  }

  /** A new attempt on an open lineage that expects no particular generation. */
  predicate FreshAttempt(lin: Lineage, r: Request) {
    && !Closed(lin.state.lifecycle) && AttemptKeyOf(r.authority) !in lin.attempts
    && r.authority.expectedLineage == None && r.authority.expectedStore == None
  }

  /** What stages 10 to 13 make of the request in its lineage. */
  ghost predicate Builds(env: Env, s: Store, r: Request, node: Node, edges: seq<Edge>) {
    var s1, lin, lid := Acquired(env, s, r), LineageFor(env, s, r), env.lineageIdOf(r.key);
    && StageBuild(env, s1, lin, lid, r) == Proceed(node, [])
    && StageChecks(env, s1, lin, lid, r, node) == Proceed(node, edges)
  }

  /** A caller let through with at most one outward edge, with room and generations to spare. */
  ghost predicate LetThrough(env: Env, s: Store, r: Request, node: Node, edges: seq<Edge>) {
    && Authorize(env, s, r) == Ok && (env.lineageIdOf(r.key) in s.lineages || |s.lineages| < env.limits.maxLineages)
    && FreshAttempt(LineageFor(env, s, r), r) && Builds(env, s, r, node, edges)
    && |edges| <= 1 && (r.kind == LinkKind || AllOutward(edges)) && Spacious(env.limits, LineageFor(env, s, r))
    && Next(s.marks.store).Some? && Next(LineageFor(env, s, r).state.lineageGeneration).Some?
  }

  /** Accepted. A publication that is let through is within the assumptions about its batch, and is
      applied whole. */
  lemma LetThroughIsApplied(env: Env, s: Store, r: Request, node: Node, edges: seq<Edge>)
    requires env.CollisionFree() && Sound(env, s) && NormalForm(r) && LetThrough(env, s, r, node, edges)
    ensures Prepared(env, s, r, node, edges) && AllowedCommit(env, s, r)
    ensures AppliedWhole(Commit(env, s, r), r,
            Applied(env, Acquired(env, s, r), env.lineageIdOf(r.key), r, node, edges))
  {
    hide Sound, NormalForm, Authorize, BatchFits, Ready, Applied, Spacious, AllOutward, Env.CollisionFree, Settled,
      StageBuild, StageChecks, Commit, Apply, Acquired, Prepared;
    assert Decision(env, s, r) == Proceed(node, edges);
    BatchHasRoom(env, LineageFor(env, s, r), r, node, edges);
    FittingIsPrepared(env, s, r, node, edges);
    CommitCases(env, s, r);
  }

  // ---------------------------------------------------------------------------------------
  // How much it adds
  // ---------------------------------------------------------------------------------------

  lemma {:induction false} WithEdgesCount(g: Graph, edges: seq<Edge>)
    ensures |WithEdges(g, edges).edges| <= |g.edges| + |edges|
    decreases |edges|
  {
    if edges != [] {
      WithEdgesCount(if edges[0].id in g.edges then g else WithEdge(g, edges[0]), edges[1..]);
    }
  }

  lemma GrownCount(env: Env, lin: Lineage, r: Request, node: Node, edges: seq<Edge>)
    requires |edges| <= 1
    ensures |Grown(env, lin, r, node, edges).edges| <= 2 * |lin.graph.edges| + 1
  {
    hide WithEdges, ReboundEdges;
    WithEdgesCount(lin.graph.(nodes := lin.graph.nodes[node.id := node]), edges);
    WithEdgesCount(Inserted(lin, r, node, edges), ReboundEdges(env, lin.graph, r, node));
    ReboundEdgesCount(env, lin.graph, r, node);
  }

  /** One more attempt, at most one more record, and at most twice the edges and one. */
  predicate GrowsByOne(lin: Lineage, lin': Lineage) {
    && |lin'.graph.nodes| <= |lin.graph.nodes| + 1 && |lin'.graph.edges| <= 2 * |lin.graph.edges| + 1
    && |lin'.attempts| <= |lin.attempts| + 1
  }

  lemma KeysBound<K, V>(m: map<K, V>, m': map<K, V>, k: K)
    requires m'.Keys <= m.Keys + {k}
    ensures |m'| <= |m| + 1
  {
    SubsetSize(m'.Keys, m.Keys + {k});
    assert |m'.Keys| == |m'| && |m.Keys| == |m|;
  }

  lemma SettledAttemptsBound(env: Env, s: Store, lin: Lineage, r: Request, node: Node, edges: seq<Edge>)
    ensures |Settled(env, s, lin, r, node, edges).attempts| <= |lin.attempts| + 1
  {
    hide Settled, Env.RequestDigest, AttemptKeyOf;
    SettledLedger(env, s, lin, r, node, edges);
    KeysBound(lin.attempts, Settled(env, s, lin, r, node, edges).attempts, AttemptKeyOf(r.authority));
  }

  lemma SettledEdgesBound(env: Env, s: Store, lin: Lineage, lid: nat, r: Request, node: Node, edges: seq<Edge>,
                          marked: Store)
    requires Ready(env, s, lin, lid, r, node, edges) && |edges| <= 1
    ensures |Settled(env, marked, lin, r, node, edges).graph.edges| <= 2 * |lin.graph.edges| + 1
  {
    hide Ready, Settled, Grown, NodesSound, Succeeds, MovedOf, Keys14;
    SettledSteady(env, s, lin, lid, r, node, edges, marked);
    GrownCount(env, lin, r, node, edges);
  }

  lemma SettledGrowsByOne(env: Env, s: Store, lin: Lineage, lid: nat, r: Request, node: Node, edges: seq<Edge>,
                          marked: Store)
    requires Ready(env, s, lin, lid, r, node, edges) && |edges| <= 1
    ensures GrowsByOne(lin, Settled(env, marked, lin, r, node, edges))
  {
    hide Ready, Settled;
    SettledNodeKeys(env, s, lin, lid, r, node, edges, marked);
    KeysBound(lin.graph.nodes, Settled(env, marked, lin, r, node, edges).graph.nodes, node.id);
    SettledEdgesBound(env, s, lin, lid, r, node, edges, marked);
    SettledAttemptsBound(env, marked, lin, r, node, edges);
  }
}
