// The shared binary codec (src/codec.cpp): how evidence, authority, bindings, records, edges and
// attempts are written, and the readers that accept exactly what the writers produce.
//
// A writer puts a value in front of the bytes that follow it; a reader takes it off again. A
// value is representable when it is one the program's fixed-width types can hold.
module Codec {
  import opened Types
  import opened StoreTypes
  import opened Bytes
  import opened EvidenceVectors
  import opened Images

  // ---------------------------------------------------------------------------------------
  // Enumeration values (include/route_provenance/enums.hpp)
  // ---------------------------------------------------------------------------------------

  const NODE_KINDS: seq<NodeKind> := [
    RouteGeneration, PathAuthorization, PlannerCandidate, AdaptiveDecision, ConvergencePlan, PolicyDecision,
    AdministrativeAction, CompactedSummary]

  const EDGE_TYPES: seq<EdgeType> := [
    DerivedFrom, Supersedes, Replaces, Withdraws, Revalidates, AuthorizedBy, ComputedFrom, SelectedFrom, AdaptedFrom,
    TransitionedBy, RolledBackFrom, RevokedBy, RetiredBy, Corrects, Invalidates]

  const REASONS: seq<ReasonCode> := [
    InitialRoute, PathRevalidated, RouteReplaced, AdminWithdrawal, PolicyChange, AdaptiveChange, EcmpChange,
    WeightChange, PathInvalidation, ConvergenceComplete, Rollback, RecoveryRevalidation, RevocationReason,
    RetirementReason, CorrectionReason, InvalidationReason, DeclarationReason, HistoryCompaction, ImportReason]

  const SOURCES: seq<SourceClass> := [
    AdministrativeSource, RouteFabric, PathAuthority, PathPlanner, AdaptiveRouting, RouteConvergence, Imported,
    RecoverySource]

  const ROOTS: seq<RootReason> := [
    InitialPublication, ImportedAdministrativeState, RecoveredDurableState, OperatorCreate]

  const LIFECYCLES: seq<NodeLifecycle> := [
    Declared, Current, Historical, RevalidationRequired, Superseded, Revoked, Retired, Invalid]

  const CURRENTNESS: seq<Currentness> := [
    IsCurrent, StaleRoute, StalePathAuthority, StalePolicy, StaleEvidence, StaleEpoch, FencedPublisher,
    HistoricalOnly, NeedsRevalidation]

  const LINEAGE_LIFECYCLES: seq<LineageLifecycle> := [Active, Withdrawn, RevokedLineage, RetiredLineage]

  const OUTCOMES: seq<Outcome> := [
    Created, Linked, Updated, Idempotent, StaleRouteOutcome, StalePathOutcome, StalePolicyOutcome, StalePlan,
    StaleEpochOutcome, StaleWorker, Duplicate, Conflict, CycleDetected, MissingParent, InvalidDerivation,
    InvalidSourceGeneration, Unauthorized, RevalidationOutcome, RevokedOutcome, RetiredOutcome, ResourceLimit,
    MalformedRequest, LineageNotFound, NodeNotFound, StoreCorrupt, WireIntegrityFailure, UnsupportedVersion,
    IoFailure, ProtocolFailure, SessionRejected, Ok, StaleLineageGeneration, StaleStoreGeneration,
    StaleEvidenceOutcome]

  /** Position of a value in its enumeration; the numeric value is one more. */
  function Position<E(==)>(table: seq<E>, e: E): nat {
    if table == [] || table[0] == e then 0 else 1 + Position(table[1..], e)
  }

  function Code<E(==)>(table: seq<E>, e: E): nat {
    1 + Position(table, e)
  }

  lemma {:induction false} PositionFound<E>(table: seq<E>, e: E)
    requires e in table
    ensures Position(table, e) < |table| && table[Position(table, e)] == e
    decreases |table|
  {
    if table[0] != e {
      PositionFound(table[1..], e);
    }
  }

  function PutEnum<E(==)>(table: seq<E>, e: E, rest: seq<Byte>): seq<Byte> {
    Put(Code(table, e), 2, rest)
  }

  /** An unknown value is refused. */
  function GetEnum<E>(table: seq<E>, s: seq<Byte>): Parsed<E> {
    var (code, s1) :- Get(s, 2);
    if 1 <= code <= |table| then Good(table[code - 1], s1) else Bad
  }

  lemma EnumRoundTrip<E>(table: seq<E>, e: E, rest: seq<Byte>)
    requires e in table && |table| < 0x1_0000
    ensures GetEnum(table, PutEnum(table, e, rest)) == Good(e, rest)
  {
    PositionFound(table, e);
    FitsTwo(Code(table, e));
    PutGet(Code(table, e), 2, rest);
  }

  lemma KnownKind(e: NodeKind)
    ensures e in NODE_KINDS
  {
    match e {
      case RouteGeneration => assert NODE_KINDS[0] == e;
      case PathAuthorization => assert NODE_KINDS[1] == e;
      case PlannerCandidate => assert NODE_KINDS[2] == e;
      case AdaptiveDecision => assert NODE_KINDS[3] == e;
      case ConvergencePlan => assert NODE_KINDS[4] == e;
      case PolicyDecision => assert NODE_KINDS[5] == e;
      case AdministrativeAction => assert NODE_KINDS[6] == e;
      case CompactedSummary => assert NODE_KINDS[7] == e;
    }
  }

  lemma KnownEdgeType(e: EdgeType)
    ensures e in EDGE_TYPES
  {
    match e {
      case DerivedFrom => assert EDGE_TYPES[0] == e;
      case Supersedes => assert EDGE_TYPES[1] == e;
      case Replaces => assert EDGE_TYPES[2] == e;
      case Withdraws => assert EDGE_TYPES[3] == e;
      case Revalidates => assert EDGE_TYPES[4] == e;
      case AuthorizedBy => assert EDGE_TYPES[5] == e;
      case ComputedFrom => assert EDGE_TYPES[6] == e;
      case SelectedFrom => assert EDGE_TYPES[7] == e;
      case AdaptedFrom => assert EDGE_TYPES[8] == e;
      case TransitionedBy => assert EDGE_TYPES[9] == e;
      case RolledBackFrom => assert EDGE_TYPES[10] == e;
      case RevokedBy => assert EDGE_TYPES[11] == e;
      case RetiredBy => assert EDGE_TYPES[12] == e;
      case Corrects => assert EDGE_TYPES[13] == e;
      case Invalidates => assert EDGE_TYPES[14] == e;
    }
  }

  lemma KnownReason(e: ReasonCode)
    ensures e in REASONS
  {
    match e {
      case InitialRoute => assert REASONS[0] == e;
      case PathRevalidated => assert REASONS[1] == e;
      case RouteReplaced => assert REASONS[2] == e;
      case AdminWithdrawal => assert REASONS[3] == e;
      case PolicyChange => assert REASONS[4] == e;
      case AdaptiveChange => assert REASONS[5] == e;
      case EcmpChange => assert REASONS[6] == e;
      case WeightChange => assert REASONS[7] == e;
      case PathInvalidation => assert REASONS[8] == e;
      case ConvergenceComplete => assert REASONS[9] == e;
      case Rollback => assert REASONS[10] == e;
      case RecoveryRevalidation => assert REASONS[11] == e;
      case RevocationReason => assert REASONS[12] == e;
      case RetirementReason => assert REASONS[13] == e;
      case CorrectionReason => assert REASONS[14] == e;
      case InvalidationReason => assert REASONS[15] == e;
      case DeclarationReason => assert REASONS[16] == e;
      case HistoryCompaction => assert REASONS[17] == e;
      case ImportReason => assert REASONS[18] == e;
    }
  }

  lemma KnownSource(e: SourceClass)
    ensures e in SOURCES
  {
    match e {
      case AdministrativeSource => assert SOURCES[0] == e;
      case RouteFabric => assert SOURCES[1] == e;
      case PathAuthority => assert SOURCES[2] == e;
      case PathPlanner => assert SOURCES[3] == e;
      case AdaptiveRouting => assert SOURCES[4] == e;
      case RouteConvergence => assert SOURCES[5] == e;
      case Imported => assert SOURCES[6] == e;
      case RecoverySource => assert SOURCES[7] == e;
    }
  }

  lemma KnownRoot(e: RootReason)
    ensures e in ROOTS
  {
    match e {
      case InitialPublication => assert ROOTS[0] == e;
      case ImportedAdministrativeState => assert ROOTS[1] == e;
      case RecoveredDurableState => assert ROOTS[2] == e;
      case OperatorCreate => assert ROOTS[3] == e;
    }
  }

  lemma KnownLifecycle(e: NodeLifecycle)
    ensures e in LIFECYCLES
  {
    match e {
      case Declared => assert LIFECYCLES[0] == e;
      case Current => assert LIFECYCLES[1] == e;
      case Historical => assert LIFECYCLES[2] == e;
      case RevalidationRequired => assert LIFECYCLES[3] == e;
      case Superseded => assert LIFECYCLES[4] == e;
      case Revoked => assert LIFECYCLES[5] == e;
      case Retired => assert LIFECYCLES[6] == e;
      case Invalid => assert LIFECYCLES[7] == e;
    }
  }

  lemma KnownCurrentness(e: Currentness)
    ensures e in CURRENTNESS
  {
    match e {
      case IsCurrent => assert CURRENTNESS[0] == e;
      case StaleRoute => assert CURRENTNESS[1] == e;
      case StalePathAuthority => assert CURRENTNESS[2] == e;
      case StalePolicy => assert CURRENTNESS[3] == e;
      case StaleEvidence => assert CURRENTNESS[4] == e;
      case StaleEpoch => assert CURRENTNESS[5] == e;
      case FencedPublisher => assert CURRENTNESS[6] == e;
      case HistoricalOnly => assert CURRENTNESS[7] == e;
      case NeedsRevalidation => assert CURRENTNESS[8] == e;
    }
  }

  lemma KnownLineageLifecycle(e: LineageLifecycle)
    ensures e in LINEAGE_LIFECYCLES
  {
    match e {
      case Active => assert LINEAGE_LIFECYCLES[0] == e;
      case Withdrawn => assert LINEAGE_LIFECYCLES[1] == e;
      case RevokedLineage => assert LINEAGE_LIFECYCLES[2] == e;
      case RetiredLineage => assert LINEAGE_LIFECYCLES[3] == e;
    }
  }

  lemma KnownOutcome(e: Outcome)
    ensures e in OUTCOMES
  {
    match e {
      case Created => assert OUTCOMES[0] == e;
      case Linked => assert OUTCOMES[1] == e;
      case Updated => assert OUTCOMES[2] == e;
      case Idempotent => assert OUTCOMES[3] == e;
      case StaleRouteOutcome => assert OUTCOMES[4] == e;
      case StalePathOutcome => assert OUTCOMES[5] == e;
      case StalePolicyOutcome => assert OUTCOMES[6] == e;
      case StalePlan => assert OUTCOMES[7] == e;
      case StaleEpochOutcome => assert OUTCOMES[8] == e;
      case StaleWorker => assert OUTCOMES[9] == e;
      case Duplicate => assert OUTCOMES[10] == e;
      case Conflict => assert OUTCOMES[11] == e;
      case CycleDetected => assert OUTCOMES[12] == e;
      case MissingParent => assert OUTCOMES[13] == e;
      case InvalidDerivation => assert OUTCOMES[14] == e;
      case InvalidSourceGeneration => assert OUTCOMES[15] == e;
      case Unauthorized => assert OUTCOMES[16] == e;
      case RevalidationOutcome => assert OUTCOMES[17] == e;
      case RevokedOutcome => assert OUTCOMES[18] == e;
      case RetiredOutcome => assert OUTCOMES[19] == e;
      case ResourceLimit => assert OUTCOMES[20] == e;
      case MalformedRequest => assert OUTCOMES[21] == e;
      case LineageNotFound => assert OUTCOMES[22] == e;
      case NodeNotFound => assert OUTCOMES[23] == e;
      case StoreCorrupt => assert OUTCOMES[24] == e;
      case WireIntegrityFailure => assert OUTCOMES[25] == e;
      case UnsupportedVersion => assert OUTCOMES[26] == e;
      case IoFailure => assert OUTCOMES[27] == e;
      case ProtocolFailure => assert OUTCOMES[28] == e;
      case SessionRejected => assert OUTCOMES[29] == e;
      case Ok => assert OUTCOMES[30] == e;
      case StaleLineageGeneration => assert OUTCOMES[31] == e;
      case StaleStoreGeneration => assert OUTCOMES[32] == e;
      case StaleEvidenceOutcome => assert OUTCOMES[33] == e;
    }
  }

  // ---------------------------------------------------------------------------------------
  // Evidence
  // ---------------------------------------------------------------------------------------

  predicate RepEvidence(e: seq<EvidenceEntry>, limits: Limits) {
    && CanonicalEvidence(e) && |e| <= limits.maxEvidence && Fits(|e|, 2)
    && forall i :: 0 <= i < |e| ==> Fits(e[i].field, 2) && Fits(e[i].value, 8)
  }

  function PutEntries(e: seq<EvidenceEntry>, rest: seq<Byte>): seq<Byte> {
    if e == [] then rest else Put(e[0].field, 2, Put(e[0].value, 8, PutEntries(e[1..], rest)))
  }

  function GetEntries(s: seq<Byte>, n: nat): Parsed<seq<EvidenceEntry>>
    decreases n
  {
    if n == 0 then Good([], s)
    else
      var (field, s1) :- Get(s, 2);
      var (value, s2) :- Get(s1, 8);
      var (more, s3) :- GetEntries(s2, n - 1);
      Good([EvidenceEntry(field, value)] + more, s3)
  }

  function PutEvidence(e: seq<EvidenceEntry>, rest: seq<Byte>): seq<Byte> {
    Put(|e|, 2, PutEntries(e, rest))
  }

  /** The entries are read as they come and then made canonical. */
  function GetEvidence(s: seq<Byte>, limits: Limits): Parsed<seq<EvidenceEntry>> {
    var (n, s1) :- Get(s, 2);
    if n > limits.maxEvidence then Bad
    else
      var (entries, s2) :- GetEntries(s1, n);
      var vector := Create(entries, limits);
      if vector.Failure? then Bad else Good(vector.value, s2)
  }

  lemma {:induction false} EntriesRoundTrip(e: seq<EvidenceEntry>, rest: seq<Byte>)
    requires forall i :: 0 <= i < |e| ==> Fits(e[i].field, 2) && Fits(e[i].value, 8)
    ensures GetEntries(PutEntries(e, rest), |e|) == Good(e, rest)
    decreases |e|
  {
    hide Put, Get, Fits;
    if e != [] {
      PutGet(e[0].field, 2, Put(e[0].value, 8, PutEntries(e[1..], rest)));
      PutGet(e[0].value, 8, PutEntries(e[1..], rest));
      EntriesRoundTrip(e[1..], rest);
      assert e == [e[0]] + e[1..];
    }
  }

  lemma EvidenceRoundTrip(e: seq<EvidenceEntry>, limits: Limits, rest: seq<Byte>)
    requires RepEvidence(e, limits)
    ensures GetEvidence(PutEvidence(e, rest), limits) == Good(e, rest)
  {
    hide Put, Get, Fits, PutEntries, GetEntries, Create;
    PutGet(|e|, 2, PutEntries(e, rest));
    EntriesRoundTrip(e, rest);
    CreateKeepsCanonical(e, limits);
  }

  // ---------------------------------------------------------------------------------------
  // Authority
  // ---------------------------------------------------------------------------------------

  function ScopeCode(s: Scope): nat {
    match s
    case NoScope => 0
    case Fabric => 1
    case NamespaceScope(_) => 2
    case LineageScope(_) => 3
    case RouteScope(_) => 4
  }

  function ScopeSubject(s: Scope): nat {
    if s.NoScope? || s.Fabric? then 0 else s.subject
  }

  /** The scope factories turn the invalid subject into no scope at all. */
  function ScopeOf(code: nat, subject: nat): Option<Scope> {
    if code == 0 then Some(NoScope)
    else if code == 1 then Some(Fabric)
    else if code == 2 then Some(if subject != 0 then NamespaceScope(subject) else NoScope)
    else if code == 3 then Some(if subject != 0 then LineageScope(subject) else NoScope)
    else if code == 4 then Some(if subject != 0 then RouteScope(subject) else NoScope)
    else None
  }

  /** An absent identity is written as zero. */
  function OrZero(x: Option<nat>): nat {
    if x.Some? then x.value else 0
  }

  function UnlessZero(v: nat): Option<nat> {
    if v == 0 then None else Some(v)
  }

  predicate RepAuthority(a: Authority) {
    && Fits(a.publisher, 8) && Fits(a.boot, 8) && Fits(a.epoch, 8) && Fits(a.attempt, 8)
    && a.scope.HasSubject() && Fits(ScopeSubject(a.scope), 8)
    && Fits(OrZero(a.expectedLineage), 8) && Fits(OrZero(a.expectedStore), 8)
  }

  function PutIdentity(a: Authority, rest: seq<Byte>): seq<Byte> {
    Put(a.publisher, 8, Put(a.boot, 8, Put(a.epoch, 8, Put(a.attempt, 8, rest))))
  }

  function PutScope(a: Authority, rest: seq<Byte>): seq<Byte> {
    Put(ScopeCode(a.scope), 2, Put(ScopeSubject(a.scope), 8,
      Put(OrZero(a.expectedLineage), 8, Put(OrZero(a.expectedStore), 8, rest))))
  }

  function PutAuthority(a: Authority, rest: seq<Byte>): seq<Byte> {
    PutIdentity(a, PutScope(a, rest))
  }

  function GetAuthority(s: seq<Byte>): Parsed<Authority> {
    var (publisher, s1) :- Get(s, 8);
    var (boot, s2) :- Get(s1, 8);
    var (epoch, s3) :- Get(s2, 8);
    var (attempt, s4) :- Get(s3, 8);
    var (code, s5) :- Get(s4, 2);
    var (subject, s6) :- Get(s5, 8);
    var (lineage, s7) :- Get(s6, 8);
    var (store, s8) :- Get(s7, 8);
    var scope := ScopeOf(code, subject);
    if scope.None? then Bad
    else Good(Authority(publisher, boot, epoch, attempt, scope.value, UnlessZero(lineage), UnlessZero(store)), s8)
  }

  lemma AuthorityRoundTrip(a: Authority, rest: seq<Byte>)
    requires RepAuthority(a)
    ensures GetAuthority(PutAuthority(a, rest)) == Good(CanonAuthority(a), rest)
  {
    hide Put, Get, Fits;
    var t8 := rest;
    var t7 := Put(OrZero(a.expectedStore), 8, t8);
    var t6 := Put(OrZero(a.expectedLineage), 8, t7);
    var t5 := Put(ScopeSubject(a.scope), 8, t6);
    var t4 := Put(ScopeCode(a.scope), 2, t5);
    var t3 := Put(a.attempt, 8, t4);
    var t2 := Put(a.epoch, 8, t3);
    var t1 := Put(a.boot, 8, t2);
    FitsTwo(ScopeCode(a.scope));
    PutGet(OrZero(a.expectedStore), 8, t8);
    PutGet(OrZero(a.expectedLineage), 8, t7);
    PutGet(ScopeSubject(a.scope), 8, t6);
    PutGet(ScopeCode(a.scope), 2, t5);
    PutGet(a.attempt, 8, t4);
    PutGet(a.epoch, 8, t3);
    PutGet(a.boot, 8, t2);
    PutGet(a.publisher, 8, t1);
  }

  // ---------------------------------------------------------------------------------------
  // Bindings: a presence mask, then the present ones in order
  // ---------------------------------------------------------------------------------------

  predicate RepPath(b: PathBinding) {
    Fits(b.path, 8) && Fits(b.generation, 8) && Fits(b.decision, 32)
  }

  function PutPath(b: PathBinding, rest: seq<Byte>): seq<Byte> {
    Put(b.path, 8, Put(b.generation, 8, Put(b.decision, 32, rest)))
  }

  function GetPath(s: seq<Byte>): Parsed<PathBinding> {
    var (path, s1) :- Get(s, 8);
    var (generation, s2) :- Get(s1, 8);
    var (decision, s3) :- Get(s2, 32);
    Good(PathBinding(path, generation, decision), s3)
  }

  lemma PathRoundTrip(b: PathBinding, rest: seq<Byte>)
    requires RepPath(b)
    ensures GetPath(PutPath(b, rest)) == Good(b, rest)
  {
    hide Put, Get, Fits;
    var t0 := rest;
    var t1 := Put(b.decision, 32, t0);
    var t2 := Put(b.generation, 8, t1);
    PutGet(b.decision, 32, t0);
    PutGet(b.generation, 8, t1);
    PutGet(b.path, 8, t2);
  }

  predicate RepPlanner(b: PlannerBinding) {
    Fits(b.request, 8) && Fits(b.generation, 8) && Fits(b.rank, 4) && Fits(b.plan, 32) && Fits(b.selectedPath, 8)
  }

  function PutPlanner(b: PlannerBinding, rest: seq<Byte>): seq<Byte> {
    Put(b.request, 8, Put(b.generation, 8, Put(b.rank, 4, Put(b.plan, 32, Put(b.selectedPath, 8, rest)))))
  }

  function GetPlanner(s: seq<Byte>): Parsed<PlannerBinding> {
    var (request, s1) :- Get(s, 8);
    var (generation, s2) :- Get(s1, 8);
    var (rank, s3) :- Get(s2, 4);
    var (plan, s4) :- Get(s3, 32);
    var (selectedPath, s5) :- Get(s4, 8);
    Good(PlannerBinding(request, generation, rank, plan, selectedPath), s5)
  }

  lemma PlannerRoundTrip(b: PlannerBinding, rest: seq<Byte>)
    requires RepPlanner(b)
    ensures GetPlanner(PutPlanner(b, rest)) == Good(b, rest)
  {
    hide Put, Get, Fits;
    var t0 := rest;
    var t1 := Put(b.selectedPath, 8, t0);
    var t2 := Put(b.plan, 32, t1);
    var t3 := Put(b.rank, 4, t2);
    var t4 := Put(b.generation, 8, t3);
    PutGet(b.selectedPath, 8, t0);
    PutGet(b.plan, 32, t1);
    PutGet(b.rank, 4, t2);
    PutGet(b.generation, 8, t3);
    PutGet(b.request, 8, t4);
  }

  predicate RepEcmp(b: EcmpBinding) {
    Fits(b.group, 8) && Fits(b.membership, 8) && Fits(b.assignment, 8)
  }

  function PutEcmp(b: EcmpBinding, rest: seq<Byte>): seq<Byte> {
    Put(b.group, 8, Put(b.membership, 8, Put(b.assignment, 8, rest)))
  }

  function GetEcmp(s: seq<Byte>): Parsed<EcmpBinding> {
    var (group, s1) :- Get(s, 8);
    var (membership, s2) :- Get(s1, 8);
    var (assignment, s3) :- Get(s2, 8);
    Good(EcmpBinding(group, membership, assignment), s3)
  }

  lemma EcmpRoundTrip(b: EcmpBinding, rest: seq<Byte>)
    requires RepEcmp(b)
    ensures GetEcmp(PutEcmp(b, rest)) == Good(b, rest)
  {
    hide Put, Get, Fits;
    var t0 := rest;
    var t1 := Put(b.assignment, 8, t0);
    var t2 := Put(b.membership, 8, t1);
    PutGet(b.assignment, 8, t0);
    PutGet(b.membership, 8, t1);
    PutGet(b.group, 8, t2);
  }

  predicate RepWeighted(b: WeightedBinding) {
    Fits(b.set_, 8) && Fits(b.policy, 8) && Fits(b.assignment, 8)
  }

  function PutWeighted(b: WeightedBinding, rest: seq<Byte>): seq<Byte> {
    Put(b.set_, 8, Put(b.policy, 8, Put(b.assignment, 8, rest)))
  }

  function GetWeighted(s: seq<Byte>): Parsed<WeightedBinding> {
    var (set_, s1) :- Get(s, 8);
    var (policy, s2) :- Get(s1, 8);
    var (assignment, s3) :- Get(s2, 8);
    Good(WeightedBinding(set_, policy, assignment), s3)
  }

  lemma WeightedRoundTrip(b: WeightedBinding, rest: seq<Byte>)
    requires RepWeighted(b)
    ensures GetWeighted(PutWeighted(b, rest)) == Good(b, rest)
  {
    hide Put, Get, Fits;
    var t0 := rest;
    var t1 := Put(b.assignment, 8, t0);
    var t2 := Put(b.policy, 8, t1);
    PutGet(b.assignment, 8, t0);
    PutGet(b.policy, 8, t1);
    PutGet(b.set_, 8, t2);
  }

  predicate RepAdaptation(b: AdaptationBinding) {
    Fits(b.decision, 8) && Fits(b.generation, 8) && Fits(b.policy, 8) && Fits(b.evidence, 8) && Fits(b.digest, 32)
  }

  function PutAdaptation(b: AdaptationBinding, rest: seq<Byte>): seq<Byte> {
    Put(b.decision, 8, Put(b.generation, 8, Put(b.policy, 8, Put(b.evidence, 8, Put(b.digest, 32, rest)))))
  }

  function GetAdaptation(s: seq<Byte>): Parsed<AdaptationBinding> {
    var (decision, s1) :- Get(s, 8);
    var (generation, s2) :- Get(s1, 8);
    var (policy, s3) :- Get(s2, 8);
    var (evidence, s4) :- Get(s3, 8);
    var (digest, s5) :- Get(s4, 32);
    Good(AdaptationBinding(decision, generation, policy, evidence, digest), s5)
  }

  lemma AdaptationRoundTrip(b: AdaptationBinding, rest: seq<Byte>)
    requires RepAdaptation(b)
    ensures GetAdaptation(PutAdaptation(b, rest)) == Good(b, rest)
  {
    hide Put, Get, Fits;
    var t0 := rest;
    var t1 := Put(b.digest, 32, t0);
    var t2 := Put(b.evidence, 8, t1);
    var t3 := Put(b.policy, 8, t2);
    var t4 := Put(b.generation, 8, t3);
    PutGet(b.digest, 32, t0);
    PutGet(b.evidence, 8, t1);
    PutGet(b.policy, 8, t2);
    PutGet(b.generation, 8, t3);
    PutGet(b.decision, 8, t4);
  }

  predicate RepConvergence(b: ConvergenceBinding) {
    Fits(b.plan, 8) && Fits(b.generation, 8) && Fits(b.step, 8) && Fits(b.completion, 32)
  }

  function PutConvergence(b: ConvergenceBinding, rest: seq<Byte>): seq<Byte> {
    Put(b.plan, 8, Put(b.generation, 8, Put(b.step, 8, Put(b.completion, 32, rest))))
  }

  function GetConvergence(s: seq<Byte>): Parsed<ConvergenceBinding> {
    var (plan, s1) :- Get(s, 8);
    var (generation, s2) :- Get(s1, 8);
    var (step, s3) :- Get(s2, 8);
    var (completion, s4) :- Get(s3, 32);
    Good(ConvergenceBinding(plan, generation, step, completion), s4)
  }

  lemma ConvergenceRoundTrip(b: ConvergenceBinding, rest: seq<Byte>)
    requires RepConvergence(b)
    ensures GetConvergence(PutConvergence(b, rest)) == Good(b, rest)
  {
    hide Put, Get, Fits;
    var t0 := rest;
    var t1 := Put(b.completion, 32, t0);
    var t2 := Put(b.step, 8, t1);
    var t3 := Put(b.generation, 8, t2);
    PutGet(b.completion, 32, t0);
    PutGet(b.step, 8, t1);
    PutGet(b.generation, 8, t2);
    PutGet(b.plan, 8, t3);
  }

  function Presence(b: Bindings): seq<bool> {
    [b.path.Some?, b.planner.Some?, b.ecmp.Some?, b.weighted.Some?, b.adaptation.Some?, b.convergence.Some?,
     b.policy.Some?]
  }

  predicate RepBindings(b: Bindings) {
    && (b.path.Some? ==> RepPath(b.path.value)) && (b.planner.Some? ==> RepPlanner(b.planner.value))
    && (b.ecmp.Some? ==> RepEcmp(b.ecmp.value)) && (b.weighted.Some? ==> RepWeighted(b.weighted.value))
    && (b.adaptation.Some? ==> RepAdaptation(b.adaptation.value))
    && (b.convergence.Some? ==> RepConvergence(b.convergence.value))
    && (b.policy.Some? ==> Fits(b.policy.value, 8))
  }

  function PutUpper(b: Bindings, rest: seq<Byte>): seq<Byte> {
    var s7 := if b.policy.Some? then Put(b.policy.value, 8, rest) else rest;
    var s6 := if b.convergence.Some? then PutConvergence(b.convergence.value, s7) else s7;
    var s5 := if b.adaptation.Some? then PutAdaptation(b.adaptation.value, s6) else s6;
    if b.weighted.Some? then PutWeighted(b.weighted.value, s5) else s5
  }

  function PutLower(b: Bindings, s4: seq<Byte>): seq<Byte> {
    var s3 := if b.ecmp.Some? then PutEcmp(b.ecmp.value, s4) else s4;
    var s2 := if b.planner.Some? then PutPlanner(b.planner.value, s3) else s3;
    if b.path.Some? then PutPath(b.path.value, s2) else s2
  }

  function PutBindings(b: Bindings, rest: seq<Byte>): seq<Byte> {
    Put(Mask(Presence(b)), 4, PutLower(b, PutUpper(b, rest)))
  }

  /** An absent part takes no bytes. */
  function Maybe<T>(present: bool, p: Parsed<T>, s: seq<Byte>): Parsed<Option<T>> {
    if !present then Good(None, s) else if p.Bad? then Bad else Good(Some(p.value), p.rest)
  }

  function GetLower(mask: nat, s0: seq<Byte>): Parsed<Bindings> {
    var (path, s1) :- Maybe(Bit(mask, 0), GetPath(s0), s0);
    var (planner, s2) :- Maybe(Bit(mask, 1), GetPlanner(s1), s1);
    var (ecmp, s3) :- Maybe(Bit(mask, 2), GetEcmp(s2), s2);
    Good(NO_BINDINGS.(path := path, planner := planner, ecmp := ecmp), s3)
  }

  function GetUpper(mask: nat, b: Bindings, s3: seq<Byte>): Parsed<Bindings> {
    var (weighted, s4) :- Maybe(Bit(mask, 3), GetWeighted(s3), s3);
    var (adaptation, s5) :- Maybe(Bit(mask, 4), GetAdaptation(s4), s4);
    var (convergence, s6) :- Maybe(Bit(mask, 5), GetConvergence(s5), s5);
    var (policy, s7) :- Maybe(Bit(mask, 6), Get(s6, 8), s6);
    Good(b.(weighted := weighted, adaptation := adaptation, convergence := convergence, policy := policy), s7)
  }

  /** An unknown presence bit is refused. */
  function GetBindings(s: seq<Byte>): Parsed<Bindings> {
    var (mask, s0) :- Get(s, 4);
    if mask >= 128 then Bad
    else
      var (lower, s3) :- GetLower(mask, s0);
      GetUpper(mask, lower, s3)
  }

  lemma PresenceReadBack(b: Bindings)
    ensures Mask(Presence(b)) < 128 && Fits(Mask(Presence(b)), 4)
    ensures Bit(Mask(Presence(b)), 0) == b.path.Some? && Bit(Mask(Presence(b)), 1) == b.planner.Some?
    ensures Bit(Mask(Presence(b)), 2) == b.ecmp.Some? && Bit(Mask(Presence(b)), 3) == b.weighted.Some?
    ensures Bit(Mask(Presence(b)), 4) == b.adaptation.Some? && Bit(Mask(Presence(b)), 5) == b.convergence.Some?
    ensures Bit(Mask(Presence(b)), 6) == b.policy.Some?
  {
    hide Mask, Bit;
    var bits := Presence(b);
    MaskBit(bits, 0);
    MaskBit(bits, 1);
    MaskBit(bits, 2);
    MaskBit(bits, 3);
    MaskBit(bits, 4);
    MaskBit(bits, 5);
    MaskBit(bits, 6);
    MaskBound(bits);
    assert Pow2(7) == 2 * Pow2(6) && Pow2(6) == 2 * Pow2(5) && Pow2(5) == 2 * Pow2(4) && Pow2(4) == 2 * Pow2(3) &&
           Pow2(3) == 2 * Pow2(2) && Pow2(2) == 2 * Pow2(1) && Pow2(1) == 2;
    assert Pow256(4) == 256 * Pow256(3) && Pow256(3) == 256 * Pow256(2) && Pow256(2) == 256 * Pow256(1) &&
           Pow256(1) == 256;
  }

  lemma LowerRoundTrip(b: Bindings, mask: nat, s4: seq<Byte>)
    requires RepBindings(b)
    requires Bit(mask, 0) == b.path.Some? && Bit(mask, 1) == b.planner.Some? && Bit(mask, 2) == b.ecmp.Some?
    ensures GetLower(mask, PutLower(b, s4)) ==
            Good(NO_BINDINGS.(path := b.path, planner := b.planner, ecmp := b.ecmp), s4)
  {
    hide Fits, Bit, PutPath, GetPath, PutPlanner, GetPlanner, PutEcmp, GetEcmp, RepPath, RepPlanner, RepEcmp,
      RepWeighted, RepAdaptation, RepConvergence;
    var s3 := if b.ecmp.Some? then PutEcmp(b.ecmp.value, s4) else s4;
    var s2 := if b.planner.Some? then PutPlanner(b.planner.value, s3) else s3;
    if b.path.Some? { PathRoundTrip(b.path.value, s2); }
    if b.planner.Some? { PlannerRoundTrip(b.planner.value, s3); }
    if b.ecmp.Some? { EcmpRoundTrip(b.ecmp.value, s4); }
  }

  lemma UpperRoundTrip(b: Bindings, lower: Bindings, mask: nat, rest: seq<Byte>)
    requires RepBindings(b)
    requires Bit(mask, 3) == b.weighted.Some? && Bit(mask, 4) == b.adaptation.Some?
    requires Bit(mask, 5) == b.convergence.Some? && Bit(mask, 6) == b.policy.Some?
    ensures GetUpper(mask, lower, PutUpper(b, rest)) ==
            Good(lower.(weighted := b.weighted, adaptation := b.adaptation, convergence := b.convergence,
                        policy := b.policy), rest)
  {
    hide Put, Get, Fits, Bit, PutWeighted, GetWeighted, PutAdaptation, GetAdaptation, PutConvergence, GetConvergence,
      RepPath, RepPlanner, RepEcmp, RepWeighted, RepAdaptation, RepConvergence;
    var s7 := if b.policy.Some? then Put(b.policy.value, 8, rest) else rest;
    var s6 := if b.convergence.Some? then PutConvergence(b.convergence.value, s7) else s7;
    var s5 := if b.adaptation.Some? then PutAdaptation(b.adaptation.value, s6) else s6;
    if b.weighted.Some? { WeightedRoundTrip(b.weighted.value, s5); }
    if b.adaptation.Some? { AdaptationRoundTrip(b.adaptation.value, s6); }
    if b.convergence.Some? { ConvergenceRoundTrip(b.convergence.value, s7); }
    if b.policy.Some? { PutGet(b.policy.value, 8, rest); }
  }

  /** For every combination of present bindings. */
  lemma BindingsRoundTrip(b: Bindings, rest: seq<Byte>)
    requires RepBindings(b)
    ensures GetBindings(PutBindings(b, rest)) == Good(b, rest)
  {
    hide Put, Get, Fits, Mask, Bit, PutLower, PutUpper, GetLower, GetUpper, Presence, RepBindings;
    PresenceReadBack(b);
    PutGet(Mask(Presence(b)), 4, PutLower(b, PutUpper(b, rest)));
    LowerRoundTrip(b, Mask(Presence(b)), PutUpper(b, rest));
    UpperRoundTrip(b, NO_BINDINGS.(path := b.path, planner := b.planner, ecmp := b.ecmp), Mask(Presence(b)), rest);
  }

  // ---------------------------------------------------------------------------------------
  // Records
  // ---------------------------------------------------------------------------------------

  function PutFlag(b: bool, rest: seq<Byte>): seq<Byte> {
    Put(if b then 1 else 0, 1, rest)
  }

  function GetFlag(s: seq<Byte>): Parsed<bool> {
    var (v, s1) :- Get(s, 1);
    if v > 1 then Bad else Good(v == 1, s1)
  }

  lemma FlagRoundTrip(b: bool, rest: seq<Byte>)
    ensures GetFlag(PutFlag(b, rest)) == Good(b, rest)
  {
    FitsOne(if b then 1 else 0);
    PutGet(if b then 1 else 0, 1, rest);
  }

  /** An absent root reason is written as zero. */
  function PutRoot(r: Option<RootReason>, rest: seq<Byte>): seq<Byte> {
    Put(if r.Some? then Code(ROOTS, r.value) else 0, 2, rest)
  }

  function GetRoot(s: seq<Byte>): Parsed<Option<RootReason>> {
    var (code, s1) :- Get(s, 2);
    if code == 0 then Good(None, s1)
    else if code <= |ROOTS| then Good(Some(ROOTS[code - 1]), s1)
    else Bad
  }

  lemma RootRoundTrip(r: Option<RootReason>, rest: seq<Byte>)
    ensures GetRoot(PutRoot(r, rest)) == Good(r, rest)
  {
    var code := if r.Some? then Code(ROOTS, r.value) else 0;
    if r.Some? {
      KnownRoot(r.value);
      PositionFound(ROOTS, r.value);
    }
    FitsTwo(code);
    PutGet(code, 2, rest);
  }

  datatype NodeHead = NodeHead(
    id: nat, kind: NodeKind, reason: ReasonCode, source: SourceClass, root: Option<RootReason>,
    lifecycle: NodeLifecycle, currentness: Currentness, revalidationRequired: bool, revalidated: bool)

  function PutHead(h: NodeHead, rest: seq<Byte>): seq<Byte> {
    Put(h.id, 8, PutEnum(NODE_KINDS, h.kind, PutEnum(REASONS, h.reason, PutEnum(SOURCES, h.source,
      PutRoot(h.root, PutEnum(LIFECYCLES, h.lifecycle, PutEnum(CURRENTNESS, h.currentness,
        PutFlag(h.revalidationRequired, PutFlag(h.revalidated, Put(0, 2, rest))))))))))
  }

  function GetHead(s: seq<Byte>): Parsed<NodeHead> {
    var (id, s1) :- Get(s, 8);
    var (kind, s2) :- GetEnum(NODE_KINDS, s1);
    var (reason, s3) :- GetEnum(REASONS, s2);
    var (source, s4) :- GetEnum(SOURCES, s3);
    var (root, s5) :- GetRoot(s4);
    var (lifecycle, s6) :- GetEnum(LIFECYCLES, s5);
    var (currentness, s7) :- GetEnum(CURRENTNESS, s6);
    var (required, s8) :- GetFlag(s7);
    var (revalidated, s9) :- GetFlag(s8);
    var (_, s10) :- Get(s9, 2);
    Good(NodeHead(id, kind, reason, source, root, lifecycle, currentness, required, revalidated), s10)
  }

  lemma HeadRoundTrip(h: NodeHead, rest: seq<Byte>)
    requires Fits(h.id, 8)
    ensures GetHead(PutHead(h, rest)) == Good(h, rest)
  {
    hide Put, Get, Fits, PutEnum, GetEnum, PutRoot, GetRoot, PutFlag, GetFlag;
    var t9 := Put(0, 2, rest);
    var t8 := PutFlag(h.revalidated, t9);
    var t7 := PutFlag(h.revalidationRequired, t8);
    var t6 := PutEnum(CURRENTNESS, h.currentness, t7);
    var t5 := PutEnum(LIFECYCLES, h.lifecycle, t6);
    var t4 := PutRoot(h.root, t5);
    var t3 := PutEnum(SOURCES, h.source, t4);
    var t2 := PutEnum(REASONS, h.reason, t3);
    var t1 := PutEnum(NODE_KINDS, h.kind, t2);
    KnownKind(h.kind);
    KnownReason(h.reason);
    KnownSource(h.source);
    KnownLifecycle(h.lifecycle);
    KnownCurrentness(h.currentness);
    FitsTwo(0);
    PutGet(h.id, 8, t1);
    EnumRoundTrip(NODE_KINDS, h.kind, t2);
    EnumRoundTrip(REASONS, h.reason, t3);
    EnumRoundTrip(SOURCES, h.source, t4);
    RootRoundTrip(h.root, t5);
    EnumRoundTrip(LIFECYCLES, h.lifecycle, t6);
    EnumRoundTrip(CURRENTNESS, h.currentness, t7);
    FlagRoundTrip(h.revalidationRequired, t8);
    FlagRoundTrip(h.revalidated, t9);
    PutGet(0, 2, rest);
  }

  datatype NodeIds = NodeIds(
    lineage: nat, route: nat, generation: nat, corrects: nat, correctedBy: nat, digest: nat, compacted: Option<nat>)

  predicate RepIds(n: NodeIds) {
    && Fits(n.lineage, 8) && Fits(n.route, 8) && Fits(n.generation, 8) && Fits(n.corrects, 8) && Fits(n.correctedBy, 8)
    && Fits(n.digest, 32) && Fits(OrZero(n.compacted), 32)
  }

  function PutIds(n: NodeIds, rest: seq<Byte>): seq<Byte> {
    Put(n.lineage, 8, Put(n.route, 8, Put(n.generation, 8, Put(n.corrects, 8, Put(n.correctedBy, 8, Put(n.digest, 32,
      PutFlag(n.compacted.Some?, Put(OrZero(n.compacted), 32, rest))))))))
  }

  function GetIds(s: seq<Byte>): Parsed<NodeIds> {
    var (lineage, s1) :- Get(s, 8);
    var (route, s2) :- Get(s1, 8);
    var (generation, s3) :- Get(s2, 8);
    var (corrects, s4) :- Get(s3, 8);
    var (correctedBy, s5) :- Get(s4, 8);
    var (digest, s6) :- Get(s5, 32);
    var (has, s7) :- GetFlag(s6);
    var (compacted, s8) :- Get(s7, 32);
    Good(NodeIds(lineage, route, generation, corrects, correctedBy, digest, if has then Some(compacted) else None), s8)
  }

  lemma IdsRoundTrip(n: NodeIds, rest: seq<Byte>)
    requires RepIds(n)
    ensures GetIds(PutIds(n, rest)) == Good(n, rest)
  {
    hide Put, Get, Fits, PutFlag, GetFlag;
    var t7 := Put(OrZero(n.compacted), 32, rest);
    var t6 := PutFlag(n.compacted.Some?, t7);
    var t5 := Put(n.digest, 32, t6);
    var t4 := Put(n.correctedBy, 8, t5);
    var t3 := Put(n.corrects, 8, t4);
    var t2 := Put(n.generation, 8, t3);
    var t1 := Put(n.route, 8, t2);
    PutGet(n.lineage, 8, t1);
    PutGet(n.route, 8, t2);
    PutGet(n.generation, 8, t3);
    PutGet(n.corrects, 8, t4);
    PutGet(n.correctedBy, 8, t5);
    PutGet(n.digest, 32, t6);
    FlagRoundTrip(n.compacted.Some?, t7);
    PutGet(OrZero(n.compacted), 32, rest);
  }

  function HeadOf(n: Node): NodeHead {
    NodeHead(n.id, n.core.kind, n.core.reason, n.core.source, n.core.rootReason, n.lifecycle, n.currentness,
             n.revalidationRequired, n.revalidated)
  }

  function OptionalIds(n: Node): NodeIds {
    NodeIds(n.core.lineage, n.core.route, n.core.generation, OrZero(n.core.corrects), OrZero(n.correctedBy),
            n.core.stateDigest, n.core.compacted)
  }

  predicate RepNode(n: Node, limits: Limits) {
    && Fits(n.id, 8) && RepIds(OptionalIds(n)) && RepEvidence(n.core.evidence, limits) && RepAuthority(n.core.authority)
    && RepBindings(n.core.bindings)
  }

  function PutNode(n: Node, rest: seq<Byte>): seq<Byte> {
    PutHead(HeadOf(n), PutIds(OptionalIds(n), PutEvidence(n.core.evidence, PutAuthority(n.core.authority,
      PutBindings(n.core.bindings, rest)))))
  }

  function GetNode(s: seq<Byte>, limits: Limits): Parsed<Node> {
    var (h, s1) :- GetHead(s);
    var (i, s2) :- GetIds(s1);
    var (evidence, s3) :- GetEvidence(s2, limits);
    var (authority, s4) :- GetAuthority(s3);
    var (bindings, s5) :- GetBindings(s4);
    Good(Node(h.id,
              NodeCore(i.lineage, h.kind, i.route, i.generation, i.digest, h.reason, h.source, h.root, evidence,
                authority,
                       bindings, UnlessZero(i.corrects), i.compacted),
              h.lifecycle, h.currentness, h.revalidationRequired, h.revalidated, UnlessZero(i.correctedBy)), s5)
  }

  /** A record as it comes back: identities that were present but zero are absent. */
  function StoredNode(n: Node): Node {
    n.(core := n.core.(authority := CanonAuthority(n.core.authority), corrects := CanonId(n.core.corrects)),
       correctedBy := CanonId(n.correctedBy))
  }

  lemma NodeRoundTrip(n: Node, limits: Limits, rest: seq<Byte>)
    requires RepNode(n, limits)
    ensures GetNode(PutNode(n, rest), limits) == Good(StoredNode(n), rest)
  {
    hide PutHead, GetHead, PutIds, GetIds, PutEvidence, GetEvidence, PutAuthority, GetAuthority, PutBindings,
      GetBindings, Fits, RepEvidence, RepAuthority, RepBindings, RepIds;
    var t4 := PutBindings(n.core.bindings, rest);
    var t3 := PutAuthority(n.core.authority, t4);
    var t2 := PutEvidence(n.core.evidence, t3);
    var t1 := PutIds(OptionalIds(n), t2);
    HeadRoundTrip(HeadOf(n), t1);
    IdsRoundTrip(OptionalIds(n), t2);
    EvidenceRoundTrip(n.core.evidence, limits, t3);
    AuthorityRoundTrip(n.core.authority, t4);
    BindingsRoundTrip(n.core.bindings, rest);
  }

  // ---------------------------------------------------------------------------------------
  // Edges
  // ---------------------------------------------------------------------------------------

  predicate RepEdge(e: Edge, limits: Limits) {
    && Fits(e.id, 8) && Fits(e.derivation, 8) && Fits(e.lineage, 8) && Fits(e.from, 8) && Fits(e.to, 8)
    && Fits(e.predecessor, 8) && Fits(e.successor, 8) && RepEvidence(e.evidence, limits) && RepAuthority(e.authority)
  }

  function PutEnds(e: Edge, rest: seq<Byte>): seq<Byte> {
    Put(e.from, 8, Put(e.to, 8, Put(e.predecessor, 8, Put(e.successor, 8, rest))))
  }

  function PutEdge(e: Edge, rest: seq<Byte>): seq<Byte> {
    Put(e.id, 8, Put(e.derivation, 8, Put(e.lineage, 8, PutEnum(EDGE_TYPES, e.etype, PutEnum(REASONS, e.reason,
      PutEnum(SOURCES, e.source, Put(0, 2, PutEnds(e, PutEvidence(e.evidence, PutAuthority(e.authority, rest))))))))))
  }

  function GetEdge(s: seq<Byte>, limits: Limits): Parsed<Edge> {
    var (id, s1) :- Get(s, 8);
    var (derivation, s2) :- Get(s1, 8);
    var (lineage, s3) :- Get(s2, 8);
    var (etype, s4) :- GetEnum(EDGE_TYPES, s3);
    var (reason, s5) :- GetEnum(REASONS, s4);
    var (source, s6) :- GetEnum(SOURCES, s5);
    var (_, s7) :- Get(s6, 2);
    var (from, s8) :- Get(s7, 8);
    var (to, s9) :- Get(s8, 8);
    var (predecessor, s10) :- Get(s9, 8);
    var (successor, s11) :- Get(s10, 8);
    var (evidence, s12) :- GetEvidence(s11, limits);
    var (authority, s13) :- GetAuthority(s12);
    Good(Edge(id, derivation, lineage, etype, from, to, predecessor, successor, reason, source, evidence, authority),
      s13)
  }

  function StoredEdge(e: Edge): Edge {
    e.(authority := CanonAuthority(e.authority))
  }

  lemma EdgeRoundTrip(e: Edge, limits: Limits, rest: seq<Byte>)
    requires RepEdge(e, limits)
    ensures GetEdge(PutEdge(e, rest), limits) == Good(StoredEdge(e), rest)
  {
    hide Put, Get, Fits, PutEnum, GetEnum, PutEvidence, GetEvidence, PutAuthority, GetAuthority, RepEvidence,
      RepAuthority;
    var t12 := PutAuthority(e.authority, rest);
    var t11 := PutEvidence(e.evidence, t12);
    var t10 := Put(e.successor, 8, t11);
    var t9 := Put(e.predecessor, 8, t10);
    var t8 := Put(e.to, 8, t9);
    var t7 := Put(e.from, 8, t8);
    var t6 := Put(0, 2, t7);
    var t5 := PutEnum(SOURCES, e.source, t6);
    var t4 := PutEnum(REASONS, e.reason, t5);
    var t3 := PutEnum(EDGE_TYPES, e.etype, t4);
    var t2 := Put(e.lineage, 8, t3);
    var t1 := Put(e.derivation, 8, t2);
    KnownEdgeType(e.etype);
    KnownReason(e.reason);
    KnownSource(e.source);
    FitsTwo(0);
    PutGet(e.id, 8, t1);
    PutGet(e.derivation, 8, t2);
    PutGet(e.lineage, 8, t3);
    EnumRoundTrip(EDGE_TYPES, e.etype, t4);
    EnumRoundTrip(REASONS, e.reason, t5);
    EnumRoundTrip(SOURCES, e.source, t6);
    PutGet(0, 2, t7);
    PutGet(e.from, 8, t8);
    PutGet(e.to, 8, t9);
    PutGet(e.predecessor, 8, t10);
    PutGet(e.successor, 8, t11);
    EvidenceRoundTrip(e.evidence, limits, t12);
    AuthorityRoundTrip(e.authority, rest);
  }

  // ---------------------------------------------------------------------------------------
  // Attempts
  // ---------------------------------------------------------------------------------------

  function PutNats(ids: seq<nat>, rest: seq<Byte>): seq<Byte> {
    if ids == [] then rest else Put(ids[0], 8, PutNats(ids[1..], rest))
  }

  function GetNats(s: seq<Byte>, n: nat): Parsed<seq<nat>>
    decreases n
  {
    if n == 0 then Good([], s)
    else
      var (id, s1) :- Get(s, 8);
      var (more, s2) :- GetNats(s1, n - 1);
      Good([id] + more, s2)
  }

  lemma {:induction false} NatsRoundTrip(ids: seq<nat>, rest: seq<Byte>)
    requires forall i :: 0 <= i < |ids| ==> Fits(ids[i], 8)
    ensures GetNats(PutNats(ids, rest), |ids|) == Good(ids, rest)
    decreases |ids|
  {
    hide Put, Get, Fits;
    if ids != [] {
      PutGet(ids[0], 8, PutNats(ids[1..], rest));
      NatsRoundTrip(ids[1..], rest);
      assert ids == [ids[0]] + ids[1..];
    }
  }

  predicate RepAttempt(a: StoredAttempt) {
    && Fits(a.publisher, 8) && Fits(a.attempt, 8) && Fits(a.record.request, 32) && Fits(a.record.node, 8)
    && Fits(|a.record.edges|, 4)
    && forall i :: 0 <= i < |a.record.edges| ==> Fits(a.record.edges[i], 8)
  }

  function PutAttempt(a: StoredAttempt, rest: seq<Byte>): seq<Byte> {
    Put(a.publisher, 8, Put(a.attempt, 8, Put(a.record.request, 32, Put(a.record.node, 8,
      PutEnum(OUTCOMES, a.record.outcome, PutEnum(LIFECYCLES, a.record.lifecycle,
        PutEnum(CURRENTNESS, a.record.currentness, Put(0, 2, Put(|a.record.edges|, 4,
          PutNats(a.record.edges, rest))))))))))
  }

  function GetAttempt(s: seq<Byte>, limits: Limits): Parsed<StoredAttempt> {
    var (publisher, s1) :- Get(s, 8);
    var (attempt, s2) :- Get(s1, 8);
    var (request, s3) :- Get(s2, 32);
    var (node, s4) :- Get(s3, 8);
    var (outcome, s5) :- GetEnum(OUTCOMES, s4);
    var (lifecycle, s6) :- GetEnum(LIFECYCLES, s5);
    var (currentness, s7) :- GetEnum(CURRENTNESS, s6);
    var (_, s8) :- Get(s7, 2);
    var (count, s9) :- Get(s8, 4);
    if count > limits.maxEdges then Bad
    else
      var (edges, s10) :- GetNats(s9, count);
      Good(StoredAttempt(publisher, attempt, AttemptRecord(request, node, edges, outcome, lifecycle, currentness)), s10)
  }

  /** The reader bounds the edges of one ledger entry by the edges a lineage may hold; the writer
      does not. */
  predicate EntryReadable(a: StoredAttempt, limits: Limits) {
    |a.record.edges| <= limits.maxEdges
  }

  /** A ledger entry reads back exactly when it lists no more edges than a lineage may hold. */
  lemma AttemptRoundTrip(a: StoredAttempt, limits: Limits, rest: seq<Byte>)
    requires RepAttempt(a)
    ensures GetAttempt(PutAttempt(a, rest), limits) == if EntryReadable(a, limits) then Good(a, rest) else Bad
  {
    hide Put, Get, Fits, PutEnum, GetEnum, PutNats, GetNats;
    var t9 := PutNats(a.record.edges, rest);
    var t8 := Put(|a.record.edges|, 4, t9);
    var t7 := Put(0, 2, t8);
    var t6 := PutEnum(CURRENTNESS, a.record.currentness, t7);
    var t5 := PutEnum(LIFECYCLES, a.record.lifecycle, t6);
    var t4 := PutEnum(OUTCOMES, a.record.outcome, t5);
    var t3 := Put(a.record.node, 8, t4);
    var t2 := Put(a.record.request, 32, t3);
    var t1 := Put(a.attempt, 8, t2);
    KnownOutcome(a.record.outcome);
    KnownLifecycle(a.record.lifecycle);
    KnownCurrentness(a.record.currentness);
    FitsTwo(0);
    PutGet(a.publisher, 8, t1);
    PutGet(a.attempt, 8, t2);
    PutGet(a.record.request, 32, t3);
    PutGet(a.record.node, 8, t4);
    EnumRoundTrip(OUTCOMES, a.record.outcome, t5);
    EnumRoundTrip(LIFECYCLES, a.record.lifecycle, t6);
    EnumRoundTrip(CURRENTNESS, a.record.currentness, t7);
    PutGet(0, 2, t8);
    PutGet(|a.record.edges|, 4, t9);
    NatsRoundTrip(a.record.edges, rest);
  }
}
