// Request-level validation (src/store_api.cpp): each public publication call is checked and
// brought into the one form the commit pipeline consumes.
module Requests {
  import opened Types
  import opened StoreTypes

  datatype ApiCall =
    | PublishRoute(
        key: LineageKey, generation: nat, stateDigest: nat, reason: ReasonCode,
        source: SourceClass, rootReason: Option<RootReason>, evidence: seq<EvidenceEntry>,
        authority: Authority, bindings: Bindings, edges: seq<EdgeSpec>,
        explicitLineage: Option<nat>)
    | Declare(
        key: LineageKey, kind: NodeKind, route: nat, generation: nat, reason: ReasonCode,
        source: SourceClass, evidence: seq<EvidenceEntry>, authority: Authority,
        bindings: Bindings)
    | LinkDerivation(
        key: LineageKey, etype: EdgeType, from: nat, to: nat, reason: ReasonCode,
        source: SourceClass, evidence: seq<EvidenceEntry>, authority: Authority)
    | Administer(
        action: PublishKind, key: LineageKey, target: nat, reason: ReasonCode,
        source: SourceClass, evidence: seq<EvidenceEntry>, authority: Authority,
        bindings: Bindings, completion: nat, allowNonCurrent: bool)
    | Correct(
        key: LineageKey, target: nat, reason: ReasonCode, source: SourceClass, stateDigest: nat,
        evidence: seq<EvidenceEntry>, authority: Authority, bindings: Bindings)

  function CheckLineageKey(key: LineageKey, limits: Limits): Outcome {
    if key.route == 0 || key.name == "" then MalformedRequest
    else if |key.name| > limits.maxKeyBytes then ResourceLimit
    else if exists i :: 0 <= i < |key.name| && (key.name[i] < ' ' || key.name[i] == 127 as char)
    then MalformedRequest
    else Ok
  }

  predicate IsDeclarationKind(kind: NodeKind) {
    kind in {PathAuthorization, PlannerCandidate, AdaptiveDecision, ConvergencePlan, PolicyDecision}
  }

  /** A declaration carries the binding of the authority it declares. */
  predicate DeclaresItsBinding(kind: NodeKind, b: Bindings) {
    match kind
    case PathAuthorization => b.path.Some?
    case PlannerCandidate => b.planner.Some?
    case AdaptiveDecision => b.adaptation.Some?
    case ConvergencePlan => b.convergence.Some?
    case PolicyDecision => b.policy.Some?
    case _ => false
  }

  function ValidateBindingFields(b: Bindings): Outcome {
    if b.path.Some? && b.path.value.path == 0 then MalformedRequest
    else if b.path.Some? && b.path.value.generation == 0 then InvalidSourceGeneration
    else if b.planner.Some? && (b.planner.value.request == 0 || b.planner.value.selectedPath == 0)
    then MalformedRequest
    else if b.planner.Some? && b.planner.value.generation == 0 then InvalidSourceGeneration
    else if b.ecmp.Some? && b.ecmp.value.group == 0 then MalformedRequest
    else if b.ecmp.Some? && (b.ecmp.value.membership == 0 || b.ecmp.value.assignment == 0)
    then InvalidSourceGeneration
    else if b.weighted.Some? && b.weighted.value.set_ == 0 then MalformedRequest
    else if b.weighted.Some? && (b.weighted.value.policy == 0 || b.weighted.value.assignment == 0)
    then InvalidSourceGeneration
    else if b.adaptation.Some? && b.adaptation.value.decision == 0 then MalformedRequest
    else if b.adaptation.Some? &&
            (b.adaptation.value.generation == 0 || b.adaptation.value.policy == 0 ||
             b.adaptation.value.evidence == 0)
    then InvalidSourceGeneration
    else if b.convergence.Some? && b.convergence.value.plan == 0 then MalformedRequest
    else if b.convergence.Some? && b.convergence.value.generation == 0 then InvalidSourceGeneration
    else if b.policy == Some(0) then InvalidSourceGeneration
    else Ok
  }

  /** Every binding present is well formed and the one the reason names is present. */
  function ValidateBindings(reason: ReasonCode, b: Bindings): Outcome {
    if ValidateBindingFields(b) != Ok then ValidateBindingFields(b)
    else if reason == EcmpChange && b.ecmp.None? then InvalidDerivation
    else if reason == WeightChange && b.weighted.None? then InvalidDerivation
    else if reason == AdaptiveChange && b.adaptation.None? then InvalidDerivation
    else if reason in {PathInvalidation, PathRevalidated} && b.path.None? then InvalidDerivation
    else if reason in {ConvergenceComplete, Rollback} && b.convergence.None? then InvalidDerivation
    else if reason == PolicyChange && b.policy.None? then InvalidDerivation
    else Ok
  }

  predicate ReasonMatches(kind: PublishKind, reason: ReasonCode) {
    match kind
    case WithdrawalKind => reason == AdminWithdrawal
    case RevocationKind => reason == RevocationReason
    case RetirementKind => reason == RetirementReason
    case RevalidationKind => reason in {RecoveryRevalidation, PathRevalidated}
    case InvalidationKind => reason in {InvalidationReason, PathInvalidation}
    case CorrectionKind => reason == CorrectionReason
    case _ => true
  }

  function ActionEdgeType(kind: PublishKind): EdgeType {
    match kind
    case WithdrawalKind => Withdraws
    case RevocationKind => RevokedBy
    case RetirementKind => RetiredBy
    case RevalidationKind => Revalidates
    case InvalidationKind => Invalidates
    case CorrectionKind => Corrects
    case _ => DerivedFrom
  }

  predicate IsAdministrative(kind: PublishKind) {
    kind in {WithdrawalKind, RevocationKind, RetirementKind, RevalidationKind, InvalidationKind}
  }

  predicate LinkTypeSupported(t: EdgeType) {
    t in {AuthorizedBy, ComputedFrom, SelectedFrom, AdaptedFrom, TransitionedBy, DerivedFrom}
  }

  /** A request with every field the call does not supply at its default. */
  function BlankRequest(kind: PublishKind, key: LineageKey, authority: Authority): Request {
    Request(kind, key, None, RouteGeneration, 0, 0, 0, InitialRoute, RouteFabric, None, [],
            authority, NO_BINDINGS, [], AuthorizedBy, 0, 0, 0, false)
  }

  function NormalizeRoute(c: ApiCall, limits: Limits): Result<Request>
    requires c.PublishRoute?
  {
    if CheckLineageKey(c.key, limits) != Ok then Failure(CheckLineageKey(c.key, limits))
    else if c.generation == 0 then Failure(InvalidSourceGeneration)
    else if c.stateDigest == 0 then Failure(InvalidDerivation)
    else if ValidateBindings(c.reason, c.bindings) != Ok then Failure(ValidateBindings(c.reason, c.bindings))
    else if exists i :: 0 <= i < |c.edges| && c.edges[i].target == 0 then Failure(MalformedRequest)
    else Success(BlankRequest(RouteStateKind, c.key, c.authority).(
      explicitLineage := c.explicitLineage, route := c.key.route, generation := c.generation,
      stateDigest := c.stateDigest, reason := c.reason, source := c.source,
      rootReason := c.rootReason, evidence := c.evidence, bindings := c.bindings,
      edges := c.edges))
  }

  function NormalizeDeclaration(c: ApiCall, limits: Limits): Result<Request>
    requires c.Declare?
  {
    if CheckLineageKey(c.key, limits) != Ok then Failure(CheckLineageKey(c.key, limits))
    else if !IsDeclarationKind(c.kind) then Failure(MalformedRequest)
    else if !DeclaresItsBinding(c.kind, c.bindings) then Failure(MalformedRequest)
    else if ValidateBindings(c.reason, c.bindings) != Ok then Failure(ValidateBindings(c.reason, c.bindings))
    else if !c.authority.HasIdentity() then Failure(Unauthorized)
    else if c.generation != 0 && c.route == 0 then Failure(MalformedRequest)
    else Success(BlankRequest(DeclarationKind, c.key, c.authority).(
      nodeKind := c.kind, route := c.route, generation := c.generation, reason := c.reason,
      source := c.source, evidence := c.evidence, bindings := c.bindings))
  }

  function NormalizeLink(c: ApiCall, limits: Limits): Result<Request>
    requires c.LinkDerivation?
  {
    if CheckLineageKey(c.key, limits) != Ok then Failure(CheckLineageKey(c.key, limits))
    else if !c.authority.HasIdentity() then Failure(Unauthorized)
    else if c.from == 0 || c.to == 0 || c.from == c.to then Failure(MalformedRequest)
    else if !LinkTypeSupported(c.etype) then Failure(MalformedRequest)
    else Success(BlankRequest(LinkKind, c.key, c.authority).(
      linkType := c.etype, linkFrom := c.from, target := c.to, reason := c.reason,
      source := c.source, evidence := c.evidence))
  }

  function NormalizeAdministrative(c: ApiCall, limits: Limits): Result<Request>
    requires c.Administer?
  {
    if CheckLineageKey(c.key, limits) != Ok then Failure(CheckLineageKey(c.key, limits))
    else if !c.authority.HasIdentity() then Failure(Unauthorized)
    else if c.target == 0 then Failure(MalformedRequest)
    else if !ReasonMatches(c.action, c.reason) then Failure(MalformedRequest)
    else if ValidateBindings(c.reason, c.bindings) != Ok then Failure(ValidateBindings(c.reason, c.bindings))
    else Success(BlankRequest(c.action, c.key, c.authority).(
      nodeKind := AdministrativeAction, target := c.target, reason := c.reason,
      source := c.source, evidence := c.evidence, bindings := c.bindings,
      completion := c.completion, allowNonCurrent := c.allowNonCurrent,
      edges := [EdgeSpec(ActionEdgeType(c.action), c.target, c.reason, c.source, c.evidence)]))
  }

  function NormalizeCorrection(c: ApiCall, limits: Limits): Result<Request>
    requires c.Correct?
  {
    if CheckLineageKey(c.key, limits) != Ok then Failure(CheckLineageKey(c.key, limits))
    else if !c.authority.HasIdentity() then Failure(Unauthorized)
    else if c.target == 0 then Failure(MalformedRequest)
    else if c.reason != CorrectionReason then Failure(MalformedRequest)
    else if ValidateBindings(c.reason, c.bindings) != Ok then Failure(ValidateBindings(c.reason, c.bindings))
    else Success(BlankRequest(CorrectionKind, c.key, c.authority).(
      target := c.target, stateDigest := c.stateDigest, reason := c.reason, source := c.source,
      evidence := c.evidence, bindings := c.bindings,
      edges := [EdgeSpec(Corrects, c.target, c.reason, c.source, c.evidence)]))
  }

  /** An administrative call names one of the five administrative actions. */
  predicate WellTyped(c: ApiCall) {
    c.Administer? ==> IsAdministrative(c.action)
  }

  function Normalize(c: ApiCall, limits: Limits): Result<Request> {
    match c
    case PublishRoute(_, _, _, _, _, _, _, _, _, _, _) => NormalizeRoute(c, limits)
    case Declare(_, _, _, _, _, _, _, _, _) => NormalizeDeclaration(c, limits)
    case LinkDerivation(_, _, _, _, _, _, _, _) => NormalizeLink(c, limits)
    case Administer(_, _, _, _, _, _, _, _, _, _) => NormalizeAdministrative(c, limits)
    case Correct(_, _, _, _, _, _, _, _) => NormalizeCorrection(c, limits)
  }

  /** What the commit pipeline may rely on. */
  predicate NormalForm(r: Request) {
    && r.key.route != 0
    && (forall i :: 0 <= i < |r.edges| ==> r.edges[i].target != 0)
    && (r.rootReason.Some? ==> r.kind == RouteStateKind)
    && match r.kind
       case RouteStateKind =>
         r.nodeKind == RouteGeneration && r.generation != 0 && r.stateDigest != 0
       case DeclarationKind => IsDeclarationKind(r.nodeKind) && r.edges == []
       case LinkKind => r.edges == [] && LinkTypeSupported(r.linkType) && r.linkFrom != r.target
       case CorrectionKind =>
         r.reason == CorrectionReason && |r.edges| == 1 && r.edges[0].etype == Corrects &&
         r.edges[0].target == r.target
       case _ =>
         |r.edges| == 1 && r.edges[0].etype == ActionEdgeType(r.kind) &&
         r.edges[0].target == r.target
  }

  ghost predicate GivesNormalForm(r: Result<Request>) {
    match r
    case Success(request) => NormalForm(request)
    case Failure(_) => true
  }

  lemma NormalizeGivesNormalForm(c: ApiCall, limits: Limits)
    requires WellTyped(c)
    ensures GivesNormalForm(Normalize(c, limits))
  {
    hide ValidateBindings, Authority.HasIdentity, DeclaresItsBinding, ReasonMatches;
  }
}
