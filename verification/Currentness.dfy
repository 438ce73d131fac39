// Currentness (src/store.cpp:68) and the operations that refresh its stored copy.
module CurrentnessModel {
  import opened Types
  import opened GraphModel
  import opened StoreTypes

  /** Currentness is a function of record state, lineage state, upstream watermarks and publisher
      liveness; the order of the tests is the documented precedence. */
  function Compute(state: LineageState, n: Node, marks: Watermarks, liveness: Liveness): Currentness
  {
    var b := n.core.bindings;
    if state.lifecycle == RetiredLineage || n.lifecycle == Retired then HistoricalOnly
    else if n.lifecycle in {Invalid, Revoked, Historical, Superseded} then HistoricalOnly
    else if n.revalidationRequired then NeedsRevalidation
    else if n.IsRouteState() && n.core.generation != state.generation then StaleRoute
    else if b.path.Some? && marks.path != 0 && b.path.value.generation != marks.path
    then StalePathAuthority
    else if b.policy.Some? && marks.policy != 0 && b.policy.value != marks.policy then StalePolicy
    else if b.adaptation.Some? && marks.policy != 0 && b.adaptation.value.policy != marks.policy
    then StalePolicy
    else if b.adaptation.Some? && marks.evidence != 0 &&
            b.adaptation.value.evidence != marks.evidence
    then StaleEvidence
    else
      var bound := EvidenceGet(n.core.evidence, FABRIC_EPOCH_FIELD);
      if bound.Some? && marks.epoch != 0 && bound.value != marks.epoch then StaleEpoch
      else if marks.epoch != 0 && n.core.authority.epoch != marks.epoch then StaleEpoch
      else if n.revalidated then IsCurrent
      else match liveness
        case Fenced => FencedPublisher
        case Unknown => NeedsRevalidation
        case Live => IsCurrent
  }

  function PublisherOf(n: Node): PublisherKey {
    (n.core.authority.publisher, n.core.authority.boot)
  }

  function Recomputed(state: LineageState, n: Node, marks: Watermarks, publishers: Registry): Currentness {
    Compute(state, n, marks, LivenessOf(publishers, PublisherOf(n)))
  }

  /** reevaluate_nodes: recompute the listed records, touch nothing else. */
  function Refresh(state: LineageState, g: Graph, marks: Watermarks, publishers: Registry,
                   ids: set<nat>): Graph {
    g.(nodes := map id | id in g.nodes ::
         if id in ids
         then g.nodes[id].(currentness := Recomputed(state, g.nodes[id], marks, publishers))
         else g.nodes[id])
  }

  /** reevaluate_index: recompute the listed records in whichever lineage owns each. */
  function RefreshOwned(s: Store, ids: set<nat>): Store {
    s.(lineages := map lid | lid in s.lineages ::
         var lin := s.lineages[lid];
         lin.(graph := Refresh(lin.state, lin.graph, s.marks, s.publishers,
                               set id | id in ids && id in s.indexes.owner &&
                                        s.indexes.owner[id] == lid)))
  }

  predicate IsLive(lifecycle: NodeLifecycle) {
    lifecycle in {Declared, Current, RevalidationRequired}
  }

  /** The stored currentness of a record is what recomputation gives. */
  ghost predicate Agrees(state: LineageState, n: Node, marks: Watermarks, publishers: Registry) {
    n.currentness == Recomputed(state, n, marks, publishers)
  }

  ghost predicate AgreesOutside(state: LineageState, g: Graph, marks: Watermarks,
                                publishers: Registry, ids: set<nat>) {
    forall id :: id in g.nodes && id !in ids ==> Agrees(state, g.nodes[id], marks, publishers)
  }

  lemma RefreshAgrees(state: LineageState, g: Graph, marks: Watermarks, publishers: Registry,
                      ids: set<nat>)
    requires AgreesOutside(state, g, marks, publishers, ids)
    ensures AgreesOutside(state, Refresh(state, g, marks, publishers, ids), marks, publishers, {})
  {
    hide Compute, LivenessOf, EvidenceGet;
    var h := Refresh(state, g, marks, publishers, ids);
    forall id | id in h.nodes ensures Agrees(state, h.nodes[id], marks, publishers) {
      CurrentnessNotRead(state, g.nodes[id], h.nodes[id].currentness, marks,
        LivenessOf(publishers, PublisherOf(g.nodes[id])));
    }
  }

  /** Recomputation does not look at the stored value. */
  lemma CurrentnessNotRead(state: LineageState, n: Node, c: Currentness, marks: Watermarks, liveness: Liveness)
    ensures Compute(state, n.(currentness := c), marks, liveness) == Compute(state, n, marks, liveness)
  {
    hide EvidenceGet;
  }

  /** A record that is not live is HISTORICAL_ONLY whatever the rest of the store does. */
  lemma DeadIsHistorical(state: LineageState, n: Node, marks: Watermarks, liveness: Liveness)
    requires !IsLive(n.lifecycle)
    ensures Compute(state, n, marks, liveness) == HistoricalOnly
  {
  }
}
