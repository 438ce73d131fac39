// The state of the provenance store (src/store_internal.hpp) as values, and the environment it
// runs in: its limits and the content-addressed identity functions.
module StoreTypes {
  import opened Types
  import opened GraphModel

  datatype Result<+T> = Success(value: T) | Failure(outcome: Outcome)

  datatype LineageKey = LineageKey(route: nat, name: string)

  datatype LineageState = LineageState(
    id: nat, key: LineageKey, lifecycle: LineageLifecycle, generation: nat, currentNode: nat,
    lineageGeneration: nat, authorityGeneration: nat, nodeCount: nat, edgeCount: nat,
    compactedCount: nat, historyCount: nat, lastBoot: nat, lastDigest: nat)

  /** A mutation attempt is identified by the publisher that chose it and its number. */
  type AttemptKey = (nat, nat)

  datatype AttemptRecord = AttemptRecord(
    request: nat, node: nat, edges: seq<nat>, outcome: Outcome, lifecycle: NodeLifecycle,
    currentness: Currentness)

  datatype Lineage = Lineage(
    state: LineageState, graph: Graph, attempts: map<AttemptKey, AttemptRecord>)

  datatype Watermarks = Watermarks(
    store: nat, path: nat, policy: nat, evidence: nat, plan: nat, epoch: nat)

  type PublisherKey = (nat, nat)

  datatype PublisherRecord = PublisherRecord(epoch: nat, scope: Scope, live: bool, fenced: bool)

  type Registry = map<PublisherKey, PublisherRecord>

  datatype Liveness = Live | Fenced | Unknown

  type ReverseIndex = map<nat, set<nat>>

  /** The reverse indexes currentness is refreshed through, and the owner of every record. */
  datatype Indexes = Indexes(
    owner: map<nat, nat>, generation: map<(nat, nat), nat>, pathAuthority: ReverseIndex,
    policy: ReverseIndex, evidence: ReverseIndex, boot: ReverseIndex)

  datatype Store = Store(
    lineages: map<nat, Lineage>, routeIndex: map<nat, nat>, indexes: Indexes, marks: Watermarks,
    publishers: Registry, recovered: bool, epochBootstrapped: bool)

  const EMPTY_STORE: Store := Store(
    map[], map[], Indexes(map[], map[], map[], map[], map[], map[]), Watermarks(0, 0, 0, 0, 0, 0),
    map[], false, false)

  function NewLineage(id: nat, key: LineageKey): Lineage {
    Lineage(LineageState(id, key, Active, 0, 0, 0, 0, 0, 0, 0, 0, 0, 0), EMPTY_GRAPH, map[])
  }

  /** The lineage of this identity; a blank one when there is none. */
  function LineageAt(s: Store, lid: nat): Lineage {
    if lid in s.lineages then s.lineages[lid] else NewLineage(lid, LineageKey(0, ""))
  }

  function LivenessOf(publishers: Registry, key: PublisherKey): Liveness {
    if key !in publishers then Unknown
    else if publishers[key].live then Live
    else Fenced
  }

  function IndexAdd(index: ReverseIndex, key: nat, id: nat): ReverseIndex {
    index[key := (if key in index then index[key] else {}) + {id}]
  }

  function IndexAt(index: ReverseIndex, key: nat): set<nat> {
    if key in index then index[key] else {}
  }

  // ---------------------------------------------------------------------------------------
  // Requests in the single form the commit pipeline consumes
  // ---------------------------------------------------------------------------------------

  datatype PublishKind =
    | RouteStateKind | DeclarationKind | LinkKind | WithdrawalKind | RevocationKind
    | RetirementKind | RevalidationKind | InvalidationKind | CorrectionKind

  datatype EdgeSpec = EdgeSpec(
    etype: EdgeType, target: nat, reason: ReasonCode, source: SourceClass,
    evidence: seq<EvidenceEntry>)

  datatype Request = Request(
    kind: PublishKind, key: LineageKey, explicitLineage: Option<nat>, nodeKind: NodeKind,
    route: nat, generation: nat, stateDigest: nat, reason: ReasonCode, source: SourceClass,
    rootReason: Option<RootReason>, evidence: seq<EvidenceEntry>, authority: Authority,
    bindings: Bindings, edges: seq<EdgeSpec>, linkType: EdgeType, linkFrom: nat, target: nat,
    completion: nat, allowNonCurrent: bool)

  /** The part of a request that the replay ledger compares: the digest leaves out the explicit
      lineage, the link type and the non-current permission. */
  function LedgerContent(r: Request): Request {
    r.(explicitLineage := None, linkType := DerivedFrom, allowNonCurrent := false,
       authority := CanonAuthority(r.authority))
  }

  datatype Publication = Publication(
    lineage: nat, node: nat, edges: seq<nat>, lineageGeneration: nat, storeGeneration: nat,
    lifecycle: NodeLifecycle, currentness: Currentness)

  // ---------------------------------------------------------------------------------------
  // Environment
  // ---------------------------------------------------------------------------------------

  /** An edge's identity is derived from its ends and its derivation. */
  datatype EdgeIdentity = EdgeIdentity(lineage: nat, derivation: nat, etype: EdgeType, from: nat, to: nat)

  datatype Env = Env(
    limits: Limits,
    nodeIdOf: NodeCore -> nat,
    derivationIdOf: Edge -> nat,
    edgeIdOf: EdgeIdentity -> nat,
    lineageIdOf: LineageKey -> nat,
    requestDigestOf: Request -> nat)
  {
    /** Digests are treated as injective on content, and identities are never zero. */
    ghost predicate CollisionFree() {
      && (forall a, b :: nodeIdOf(a) == nodeIdOf(b) ==> a == b)
      && (forall a, b :: derivationIdOf(a) == derivationIdOf(b) ==> a == b)
      && (forall a, b :: edgeIdOf(a) == edgeIdOf(b) ==> a == b)
      && (forall a, b :: lineageIdOf(a) == lineageIdOf(b) ==> a == b)
      && (forall a :: nodeIdOf(a) != 0)
      && (forall a :: edgeIdOf(a) != 0)
      && (forall a :: lineageIdOf(a) != 0)
    }

    function NodeId(c: NodeCore): nat {
      nodeIdOf(CanonCore(c))
    }

    function DerivationId(e: Edge): nat {
      derivationIdOf(CanonEdge(e))
    }

    function EdgeId(e: Edge): nat {
      edgeIdOf(EdgeIdentity(e.lineage, e.derivation, e.etype, e.from, e.to))
    }

    function RequestDigest(r: Request): nat {
      requestDigestOf(LedgerContent(r))
    }

    function FinalizeEdge(e: Edge): Edge {
      var d := e.(derivation := DerivationId(e));
      d.(id := EdgeId(d))
    }
  }
}
