// The entities of the provenance store: closed enumerations, records, derivation edges,
// bindings, authority and limits, with the pure checks that src/core.cpp makes on them.
//
// Identities and generations are natural numbers and zero is the absent value. A digest is the
// 256-bit number its bytes spell. Where the 64-bit width matters (checked generation advance,
// fixed-width codecs) it is written out.
module Types {

  datatype Option<+T> = None | Some(value: T)

  const MAX_U64: nat := 0xFFFF_FFFF_FFFF_FFFF

  // ---------------------------------------------------------------------------------------
  // Enumerations (include/route_provenance/enums.hpp)
  // ---------------------------------------------------------------------------------------

  datatype NodeKind =
    | RouteGeneration | PathAuthorization | PlannerCandidate | AdaptiveDecision
    | ConvergencePlan | PolicyDecision | AdministrativeAction | CompactedSummary

  datatype EdgeType =
    | DerivedFrom | Supersedes | Replaces | Withdraws | Revalidates | AuthorizedBy
    | ComputedFrom | SelectedFrom | AdaptedFrom | TransitionedBy | RolledBackFrom
    | RevokedBy | RetiredBy | Corrects | Invalidates

  datatype SourceClass =
    | AdministrativeSource | RouteFabric | PathAuthority | PathPlanner | AdaptiveRouting
    | RouteConvergence | Imported | RecoverySource

  datatype ReasonCode =
    | InitialRoute | PathRevalidated | RouteReplaced | AdminWithdrawal | PolicyChange
    | AdaptiveChange | EcmpChange | WeightChange | PathInvalidation | ConvergenceComplete
    | Rollback | RecoveryRevalidation | RevocationReason | RetirementReason | CorrectionReason
    | InvalidationReason | DeclarationReason | HistoryCompaction | ImportReason

  datatype RootReason =
    | InitialPublication | ImportedAdministrativeState | RecoveredDurableState | OperatorCreate

  datatype NodeLifecycle =
    | Declared | Current | Historical | RevalidationRequired | Superseded | Revoked | Retired
    | Invalid

  datatype Currentness =
    | IsCurrent | StaleRoute | StalePathAuthority | StalePolicy | StaleEvidence | StaleEpoch
    | FencedPublisher | HistoricalOnly | NeedsRevalidation

  datatype LineageLifecycle = Active | Withdrawn | RevokedLineage | RetiredLineage

  datatype Outcome =
    | Created | Linked | Updated | Idempotent | StaleRouteOutcome | StalePathOutcome
    | StalePolicyOutcome | StalePlan | StaleEpochOutcome | StaleWorker | Duplicate | Conflict
    | CycleDetected | MissingParent | InvalidDerivation | InvalidSourceGeneration
    | Unauthorized | RevalidationOutcome | RevokedOutcome | RetiredOutcome | ResourceLimit
    | MalformedRequest | LineageNotFound | NodeNotFound | StoreCorrupt
    | WireIntegrityFailure | UnsupportedVersion | IoFailure | ProtocolFailure
    | SessionRejected | Ok | StaleLineageGeneration | StaleStoreGeneration
    | StaleEvidenceOutcome

  // ---------------------------------------------------------------------------------------
  // Evidence, authority, bindings
  // ---------------------------------------------------------------------------------------

  const FABRIC_EPOCH_FIELD: nat := 6

  datatype EvidenceEntry = EvidenceEntry(field: nat, value: nat)

  /** A canonical vector: strictly ascending fields, no zero generation. */
  predicate CanonicalEvidence(entries: seq<EvidenceEntry>) {
    && (forall i :: 0 <= i < |entries| ==> entries[i].value != 0)
    && (forall i, j :: 0 <= i < j < |entries| ==> entries[i].field < entries[j].field)
  }

  function EvidenceGet(entries: seq<EvidenceEntry>, field: nat): Option<nat> {
    if entries == [] then None
    else if entries[0].field == field then Some(entries[0].value)
    else EvidenceGet(entries[1..], field)
  }

  datatype Scope =
    | NoScope | Fabric | NamespaceScope(subject: nat) | LineageScope(subject: nat)
    | RouteScope(subject: nat)
  {
    /** Default deny. No operation modelled here names a routing namespace in its target, so a
        namespace scope never covers it. */
    predicate Permits(lineage: nat, route: nat) {
      match this
      case NoScope => false
      case Fabric => true
      case NamespaceScope(_) => false
      case LineageScope(s) => s != 0 && s == lineage
      case RouteScope(s) => s != 0 && s == route
    }

    /** What the scope factories produce: a subject is never the invalid identity. */
    predicate HasSubject() {
      NoScope? || Fabric? || subject != 0
    }
  }

  datatype Authority = Authority(
    publisher: nat, boot: nat, epoch: nat, attempt: nat, scope: Scope,
    expectedLineage: Option<nat>, expectedStore: Option<nat>)
  {
    predicate HasIdentity() {
      publisher != 0 && boot != 0 && epoch != 0 && attempt != 0
    }
  }

  datatype PathBinding = PathBinding(path: nat, generation: nat, decision: nat)
  datatype PlannerBinding = PlannerBinding(
    request: nat, generation: nat, rank: nat, plan: nat, selectedPath: nat)
  datatype EcmpBinding = EcmpBinding(group: nat, membership: nat, assignment: nat)
  datatype WeightedBinding = WeightedBinding(set_: nat, policy: nat, assignment: nat)
  datatype AdaptationBinding = AdaptationBinding(
    decision: nat, generation: nat, policy: nat, evidence: nat, digest: nat)
  datatype ConvergenceBinding = ConvergenceBinding(
    plan: nat, generation: nat, step: nat, completion: nat)

  datatype Bindings = Bindings(
    path: Option<PathBinding>, planner: Option<PlannerBinding>, ecmp: Option<EcmpBinding>,
    weighted: Option<WeightedBinding>, adaptation: Option<AdaptationBinding>,
    convergence: Option<ConvergenceBinding>, policy: Option<nat>)

  const NO_BINDINGS: Bindings := Bindings(None, None, None, None, None, None, None)

  // ---------------------------------------------------------------------------------------
  // Records and edges (include/route_provenance/node.hpp)
  // ---------------------------------------------------------------------------------------

  /** The immutable part of a record: everything its identity is derived from. */
  datatype NodeCore = NodeCore(
    lineage: nat, kind: NodeKind, route: nat, generation: nat, stateDigest: nat,
    reason: ReasonCode, source: SourceClass, rootReason: Option<RootReason>,
    evidence: seq<EvidenceEntry>, authority: Authority, bindings: Bindings,
    corrects: Option<nat>, compacted: Option<nat>)

  /** A record: its identity, its immutable core and its mutable state. */
  datatype Node = Node(
    id: nat, core: NodeCore, lifecycle: NodeLifecycle, currentness: Currentness,
    revalidationRequired: bool, revalidated: bool, correctedBy: Option<nat>)
  {
    predicate IsRouteState() {
      core.kind == RouteGeneration
    }
  }

  datatype Edge = Edge(
    id: nat, derivation: nat, lineage: nat, etype: EdgeType, from: nat, to: nat,
    predecessor: nat, successor: nat, reason: ReasonCode, source: SourceClass,
    evidence: seq<EvidenceEntry>, authority: Authority)

  /** An optional identity that is present but zero is hashed and stored as if absent. */
  function CanonId(x: Option<nat>): Option<nat> {
    if x == Some(0) then None else x
  }

  function CanonAuthority(a: Authority): Authority {
    a.(expectedLineage := CanonId(a.expectedLineage), expectedStore := CanonId(a.expectedStore))
  }

  /** The content a record digest can see. */
  function CanonCore(c: NodeCore): NodeCore {
    c.(authority := CanonAuthority(c.authority), corrects := CanonId(c.corrects),
       compacted := CanonId(c.compacted))
  }

  /** The content a derivation digest can see: all of the edge but its two identities. */
  function CanonEdge(e: Edge): Edge {
    e.(id := 0, derivation := 0, authority := CanonAuthority(e.authority))
  }

  // ---------------------------------------------------------------------------------------
  // Pure checks of src/core.cpp
  // ---------------------------------------------------------------------------------------

  predicate IsSuccessorRelation(t: EdgeType) {
    t in {Supersedes, Replaces, DerivedFrom, RolledBackFrom}
  }

  predicate IsEvidenceRelation(t: EdgeType) {
    t in {AuthorizedBy, ComputedFrom, SelectedFrom, AdaptedFrom, TransitionedBy}
  }

  predicate ValidTransition(from: NodeLifecycle, to: NodeLifecycle) {
    from == to ||
    match from
    case Declared => to in {Current, Historical, Invalid, Superseded}
    case Current => to in {Historical, Superseded, Revoked, Retired, Invalid, RevalidationRequired}
    case RevalidationRequired => to in {Current, Historical, Superseded, Revoked, Retired, Invalid}
    case Historical => to in {Invalid, Revoked, Retired, Superseded}
    case Superseded => to in {Invalid, Revoked, Retired}
    case Revoked => to in {Retired, Invalid}
    case Retired => to == Invalid
    case Invalid => false
  }

  predicate IsHistoryRecord(n: Node) {
    n.core.kind != CompactedSummary && n.lifecycle in {Historical, Superseded, Invalid}
  }

  function ValidateNode(n: Node): Outcome {
    if n.core.lineage == 0 then MalformedRequest
    else if !n.core.authority.HasIdentity() then Unauthorized
    else if n.IsRouteState() &&
            (n.core.route == 0 || n.core.generation == 0 || n.core.stateDigest == 0 ||
             n.lifecycle == Declared) then InvalidDerivation
    else if n.core.kind == CompactedSummary &&
            (n.core.generation == 0 || n.core.compacted == None || n.lifecycle == Current ||
             n.lifecycle == Declared) then InvalidDerivation
    else if n.core.rootReason.Some? && !n.IsRouteState() then InvalidDerivation
    else if n.core.corrects.Some? && n.core.reason != CorrectionReason then InvalidDerivation
    else Ok
  }

  function ValidateEdge(e: Edge): Outcome {
    if e.lineage == 0 || e.from == 0 || e.to == 0 then MalformedRequest
    else if e.from == e.to then CycleDetected
    else if IsSuccessorRelation(e.etype) &&
            (e.predecessor == 0 || e.successor == 0 || e.predecessor >= e.successor)
    then InvalidDerivation
    else Ok
  }

  /** Checked generation advance: no result at the 64-bit boundary instead of a wrap. */
  function Next(generation: nat): Option<nat> {
    if generation >= MAX_U64 then None else Some(generation + 1)
  }

  // ---------------------------------------------------------------------------------------
  // Limits (include/route_provenance/limits.hpp)
  // ---------------------------------------------------------------------------------------

  datatype Limits = Limits(
    maxLineages: nat, maxStoreBytes: nat, maxNodes: nat, maxEdges: nat, maxHistory: nat,
    maxAttempts: nat, maxParents: nat, maxChildren: nat, maxDepth: nat, maxResults: nat,
    maxVisited: nat, maxBatch: nat, maxEvidence: nat, maxKeyBytes: nat, maxFrameBytes: nat,
    maxPublishers: nat, maxRecordBytes: nat, maxImageNodes: nat, maxImageEdges: nat)
  {
    /** The bounds the graph needs from Limits::validate. */
    predicate Positive() {
      maxDepth > 0 && maxResults > 0 && maxVisited > 0
    }
  }
}
