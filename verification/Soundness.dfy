// What every reachable store keeps: the structural invariant of each lineage, the reverse
// indexes, and the agreement of stored currentness with recomputation.
module Soundness {
  import opened Types
  import opened Digraph
  import opened GraphModel
  import opened StoreTypes
  import opened CurrentnessModel
  import opened CommitPipeline

  // ---------------------------------------------------------------------------------------
  // One lineage
  // ---------------------------------------------------------------------------------------

  /** An identity that a recorded attempt of this lineage derived from its content. */
  ghost predicate HasOrigin(env: Env, lid: nat, attempts: set<AttemptKey>, id: nat) {
    exists c :: env.nodeIdOf(c) == id && c.lineage == lid && AttemptKeyOf(c.authority) in attempts
  }

  ghost predicate NodeSound(env: Env, lid: nat, attempts: set<AttemptKey>, n: Node) {
    && ValidateNode(n) == Ok
    && n.core.lineage == lid
    && HasOrigin(env, lid, attempts, n.id)
    && (n.core.kind != CompactedSummary ==> n.id == env.NodeId(n.core))
    && (n.lifecycle == Declared ==> !n.revalidated)
    && !n.revalidationRequired && n.lifecycle != RevalidationRequired
  }

  ghost predicate EdgeSound(env: Env, lid: nat, attempts: set<AttemptKey>, e: Edge) {
    && ValidateEdge(e) == Ok
    && e.lineage == lid
    && e == env.FinalizeEdge(e)
    && AttemptKeyOf(e.authority) in attempts
  }

  ghost predicate NodesSound(env: Env, lid: nat, attempts: set<AttemptKey>, g: Graph) {
    forall id :: id in g.nodes ==> NodeSound(env, lid, attempts, g.nodes[id])
  }

  ghost predicate EdgesSound(env: Env, lid: nat, attempts: set<AttemptKey>, g: Graph) {
    forall e :: e in g.edges ==> EdgeSound(env, lid, attempts, g.edges[e])
  }

  ghost predicate GraphSound(env: Env, lid: nat, attempts: set<AttemptKey>, g: Graph) {
    IsDag(g) && NodesSound(env, lid, attempts, g) && EdgesSound(env, lid, attempts, g)
  }

  ghost predicate RouteStateWithin(st: LineageState, n: Node) {
    n.IsRouteState() ==> n.core.route == st.key.route && n.core.generation <= st.generation
  }

  /** At the current generation every route state but the current record has been corrected. */
  ghost predicate Displaced(st: LineageState, n: Node) {
    n.IsRouteState() && n.core.generation == st.generation && n.id != st.currentNode ==>
      n.lifecycle == Invalid && n.correctedBy.Some?
  }

  ghost predicate CurrentPresent(st: LineageState, g: Graph) {
    if st.generation == 0 then st.currentNode == 0
    else
      && st.currentNode in g.nodes
      && g.nodes[st.currentNode].IsRouteState()
      && g.nodes[st.currentNode].core.generation == st.generation
  }

  /** No route state is newer than the lineage's current generation, and the current record is
      the only one at that generation that has not been corrected. */
  ghost predicate SingleLive(st: LineageState, g: Graph) {
    && (forall id :: id in g.nodes ==>
          RouteStateWithin(st, g.nodes[id]) && Displaced(st, g.nodes[id]))
    && CurrentPresent(st, g)
  }

  ghost predicate Standing(lin: Lineage) {
    SingleLive(lin.state, lin.graph)
  }

  /** Every ledger entry names a record of the lineage, and entries that created one name
      distinct records. */
  ghost predicate LedgerSound(lin: Lineage) {
    && (forall k :: k in lin.attempts ==>
          k.0 != 0 && k.1 != 0 && lin.attempts[k].node in lin.graph.nodes)
    && (forall j, k ::
          (j in lin.attempts && k in lin.attempts && j != k &&
           lin.attempts[j].outcome == Created && lin.attempts[k].outcome == Created) ==>
          lin.attempts[j].node != lin.attempts[k].node)
  }

  /** The stored counters are what counting gives. */
  ghost predicate CountsExact(lin: Lineage) {
    && lin.state.nodeCount == |lin.graph.nodes| && lin.state.edgeCount == |lin.graph.edges|
    && lin.state.historyCount == |HistoryRecords(lin.graph)|
  }

  ghost predicate LineageSound(env: Env, lid: nat, lin: Lineage) {
    && lid == lin.state.id && lid == env.lineageIdOf(lin.state.key) && lin.state.key.route != 0
    && GraphSound(env, lid, lin.attempts.Keys, lin.graph)
    && CurrentPresent(lin.state, lin.graph)
    && LedgerSound(lin)
    && CountsExact(lin)
    && (lin.graph.nodes.Keys != {} ==> lin.state.lineageGeneration > 0)
  }

  // ---------------------------------------------------------------------------------------
  // The whole store
  // ---------------------------------------------------------------------------------------

  ghost predicate RoutesDistinct(s: Store) {
    forall a, b ::
      (a in s.lineages && b in s.lineages &&
       s.lineages[a].state.key.route == s.lineages[b].state.key.route) ==> a == b
  }

  ghost predicate Owned(s: Store) {
    forall lid, id :: lid in s.lineages && id in s.lineages[lid].graph.nodes ==>
      id in s.indexes.owner && s.indexes.owner[id] == lid
  }

  ghost predicate GenerationIndexed(s: Store, lin: Lineage) {
    lin.state.generation != 0 ==>
      var k := (lin.state.key.route, lin.state.generation);
      k in s.indexes.generation && s.indexes.generation[k] in lin.graph.nodes
  }

  /** The structural invariant of the store: consistent acyclic lineages, ledgers that name their
      records, one owner for every record. */
  ghost predicate Sound(env: Env, s: Store) {
    && !s.recovered
    && (s.marks.epoch == 0 ==> s.lineages == map[])
    && Owned(s)
    && forall lid :: lid in s.lineages ==> LineageSound(env, lid, s.lineages[lid])
  }

  /** Where the route states of a lineage stand, and that the generation index finds the current
      one. */
  ghost predicate LineagePlaced(s: Store, lin: Lineage) {
    Standing(lin) && GenerationIndexed(s, lin)
  }

  /** One live route state in every lineage, and one lineage for every route. */
  ghost predicate Placed(s: Store) {
    RoutesDistinct(s) && forall lid :: lid in s.lineages ==> LineagePlaced(s, s.lineages[lid])
  }

  // ---------------------------------------------------------------------------------------
  // Currentness
  // ---------------------------------------------------------------------------------------

  /** The reverse indexes reach the record by everything its currentness depends on. */
  ghost predicate Reachable(x: Indexes, n: Node) {
    var b := n.core.bindings;
    && n.id in IndexAt(x.boot, n.core.authority.boot)
    && (b.path.Some? ==> n.id in IndexAt(x.pathAuthority, b.path.value.generation))
    && (b.policy.Some? ==> n.id in IndexAt(x.policy, b.policy.value))
    && (b.adaptation.Some? ==>
          && n.id in IndexAt(x.policy, b.adaptation.value.policy)
          && n.id in IndexAt(x.evidence, b.adaptation.value.evidence))
  }

  /** No binding is ahead of an announced watermark. */
  ghost predicate NotAhead(m: Watermarks, b: Bindings) {
    && (b.path.Some? && m.path != 0 ==> b.path.value.generation <= m.path)
    && (b.policy.Some? && m.policy != 0 ==> b.policy.value <= m.policy)
    && (b.adaptation.Some? && m.policy != 0 ==> b.adaptation.value.policy <= m.policy)
    && (b.adaptation.Some? && m.evidence != 0 ==> b.adaptation.value.evidence <= m.evidence)
  }

  ghost predicate Tracked(s: Store, n: Node) {
    IsLive(n.lifecycle) ==>
      && Reachable(s.indexes, n)
      && NotAhead(s.marks, n.core.bindings)
      && PublisherOf(n) in s.publishers
  }

  ghost predicate AllTracked(s: Store) {
    forall lid, id :: lid in s.lineages && id in s.lineages[lid].graph.nodes ==>
      Tracked(s, s.lineages[lid].graph.nodes[id])
  }

  /** The stored currentness of every record of a lineage that is not retired is what
      recomputation gives now. */
  ghost predicate CacheAgrees(s: Store) {
    forall lid :: lid in s.lineages && s.lineages[lid].state.lifecycle != RetiredLineage ==>
      AgreesOutside(s.lineages[lid].state, s.lineages[lid].graph, s.marks, s.publishers, {})
  }

  ghost predicate Invariant(env: Env, s: Store) {
    Sound(env, s) && Placed(s) && AllTracked(s) && CacheAgrees(s)
  }
}
