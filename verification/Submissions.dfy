// Calls of a scene's caller and why each is let through: first records, successors, corrections,
// invalidations and links.
module Submissions {
  import opened Types
  import opened Ordering
  import opened Digraph
  import opened GraphModel
  import opened StoreTypes
  import opened CurrentnessModel
  import opened Requests
  import opened CommitPipeline
  import opened Operations
  import opened Soundness
  import opened Admission
  import opened Insertions
  import opened Settlement
  import opened Transition
  import opened LineageSteps
  import opened CommitSteps
  import opened Progress
  import opened Runs
  import opened Acceptance
  import opened Scenes

  // ---------------------------------------------------------------------------------------
  // The calls and their normal forms
  // ---------------------------------------------------------------------------------------

  function Blank(x: Scene, ops: seq<Op>, kind: PublishKind): Request {
    BlankRequest(kind, x.key, Signed(x.caller, ops)).(bindings := if kind == LinkKind then NO_BINDINGS else x.bindings)
  }

  function RootCall(x: Scene, ops: seq<Op>, generation: nat): ApiCall {
    PublishRoute(x.key, generation, 1, InitialRoute, RouteFabric, Some(InitialPublication), [], Signed(x.caller, ops),
                 x.bindings, [], None)
  }

  function RootRequest(x: Scene, ops: seq<Op>, generation: nat): Request {
    Blank(x, ops, RouteStateKind).(
      route := x.key.route, generation := generation, stateDigest := 1, rootReason := Some(InitialPublication))
  }

  lemma RootSubmits(x: Scene, ops: seq<Op>, generation: nat)
    requires Staged(x) && generation != 0
    ensures Submits(x, ops, RootCall(x, ops, generation), RootRequest(x, ops, generation))
  {
    hide CheckLineageKey, ValidateBindingFields, Env.CollisionFree;
  }

  function SupersedingSpec(current: nat): EdgeSpec {
    EdgeSpec(Supersedes, current, RouteReplaced, RouteFabric, [])
  }

  /** The current record is superseded by one of a newer generation. */
  function SuccessorCall(x: Scene, ops: seq<Op>, generation: nat, current: nat): ApiCall {
    PublishRoute(x.key, generation, 1, RouteReplaced, RouteFabric, None, [], Signed(x.caller, ops), x.bindings,
                 [SupersedingSpec(current)], None)
  }

  function SuccessorRequest(x: Scene, ops: seq<Op>, generation: nat, current: nat): Request {
    Blank(x, ops, RouteStateKind).(
      route := x.key.route, generation := generation, stateDigest := 1, reason := RouteReplaced,
      edges := [SupersedingSpec(current)])
  }

  lemma SuccessorSubmits(x: Scene, ops: seq<Op>, generation: nat, current: nat)
    requires Staged(x) && generation != 0 && current != 0
    ensures Submits(x, ops, SuccessorCall(x, ops, generation, current), SuccessorRequest(x, ops, generation, current))
  {
    hide CheckLineageKey, ValidateBindingFields, Env.CollisionFree;
  }

  function CorrectionCall(x: Scene, ops: seq<Op>, target: nat): ApiCall {
    Correct(x.key, target, CorrectionReason, RouteFabric, 2, [], Signed(x.caller, ops), x.bindings)
  }

  function CorrectionRequest(x: Scene, ops: seq<Op>, target: nat): Request {
    Blank(x, ops, CorrectionKind).(
      target := target, stateDigest := 2, reason := CorrectionReason,
      edges := [EdgeSpec(Corrects, target, CorrectionReason, RouteFabric, [])])
  }

  lemma CorrectionSubmits(x: Scene, ops: seq<Op>, target: nat)
    requires Staged(x) && target != 0
    ensures Submits(x, ops, CorrectionCall(x, ops, target), CorrectionRequest(x, ops, target))
  {
    hide CheckLineageKey, ValidateBindingFields, Env.CollisionFree;
  }

  /** A policy decision is declared, without a generation. */
  function PolicyCall(x: Scene, ops: seq<Op>): ApiCall {
    Declare(x.key, PolicyDecision, 0, 0, DeclarationReason, PathAuthority, [], Signed(x.caller, ops), x.bindings)
  }

  function PolicyRequest(x: Scene, ops: seq<Op>): Request {
    Blank(x, ops, DeclarationKind).(nodeKind := PolicyDecision, reason := DeclarationReason, source := PathAuthority)
  }

  lemma PolicySubmits(x: Scene, ops: seq<Op>)
    requires Staged(x) && x.bindings.policy.Some?
    ensures Submits(x, ops, PolicyCall(x, ops), PolicyRequest(x, ops))
  {
    hide CheckLineageKey, ValidateBindingFields, Env.CollisionFree;
  }

  function InvalidationCall(x: Scene, ops: seq<Op>, target: nat): ApiCall {
    Administer(InvalidationKind, x.key, target, InvalidationReason, AdministrativeSource, [], Signed(x.caller, ops),
               x.bindings, 0, false)
  }

  function InvalidationRequest(x: Scene, ops: seq<Op>, target: nat): Request {
    Blank(x, ops, InvalidationKind).(
      nodeKind := AdministrativeAction, target := target, reason := InvalidationReason, source := AdministrativeSource,
      edges := [EdgeSpec(Invalidates, target, InvalidationReason, AdministrativeSource, [])])
  }

  lemma InvalidationSubmits(x: Scene, ops: seq<Op>, target: nat)
    requires Staged(x) && target != 0
    ensures Submits(x, ops, InvalidationCall(x, ops, target), InvalidationRequest(x, ops, target))
  {
    hide CheckLineageKey, ValidateBindingFields, Env.CollisionFree;
  }

  function LinkCall(x: Scene, ops: seq<Op>, from: nat, to: nat): ApiCall {
    LinkDerivation(x.key, AuthorizedBy, from, to, DeclarationReason, PathAuthority, [], Signed(x.caller, ops))
  }

  function LinkRequest(x: Scene, ops: seq<Op>, from: nat, to: nat): Request {
    Blank(x, ops, LinkKind).(linkFrom := from, target := to, reason := DeclarationReason, source := PathAuthority)
  }

  lemma LinkSubmits(x: Scene, ops: seq<Op>, from: nat, to: nat)
    requires Staged(x) && from != 0 && to != 0 && from != to
    ensures Submits(x, ops, LinkCall(x, ops, from, to), LinkRequest(x, ops, from, to))
  {
    hide CheckLineageKey, ValidateBindingFields, Env.CollisionFree;
  }

  // ---------------------------------------------------------------------------------------
  // Why each is let through
  // ---------------------------------------------------------------------------------------

  /** A caller who may go on. */
  ghost predicate Poised(x: Scene, ops: seq<Op>, s: Store) {
    Staged(x) && On(x, ops, s) && Spacious(x.env.limits, Line(x, s)) && |ops| < 8 && x.env.limits.maxLineages > 0
  }

  lemma GenerousIsPoised(x: Scene, ops: seq<Op>, s: Store)
    requires Staged(x) && On(x, ops, s) && Generous(x.env.limits) && |ops| < 8
    ensures Poised(x, ops, s)
  {
    hide Staged, On, Spacious;
    HasRoom(x, ops, s);
  }

  lemma RootPrompts(x: Scene, ops: seq<Op>, s: Store, generation: nat) returns (node: Node)
    requires Poised(x, ops, s) && generation != 0 && Line(x, s).state.generation == 0
    ensures Prompts(x, ops, s, RootCall(x, ops, generation), RootRequest(x, ops, generation), node, [])
  {
    hide Leads, LineageSound, Standing, Spacious, Serves, StageFreshness, CountsExact, WellFormed, StageChecks, Submits,
      Env.CollisionFree, CheckLineageKey, ValidateBindingFields, Env.NodeId, LineageAt, SizeWithin, BoundAt;
    var r := RootRequest(x, ops, generation);
    LineSound(x, ops, s);
    RootSubmits(x, ops, generation);
    LineIs(x, s, r);
    node := NewNode(x.env, BlankCore(Lid(x), r), Current);
    NoEdgeChecked(x.env, Acquired(x.env, s, r), Line(x, s), Lid(x), r, node);
  }

  lemma PolicyPrompts(x: Scene, ops: seq<Op>, s: Store) returns (node: Node)
    requires Poised(x, ops, s) && x.bindings.policy.Some?
    ensures Prompts(x, ops, s, PolicyCall(x, ops), PolicyRequest(x, ops), node, [])
    ensures node.core.generation == 0 && node.core.kind == PolicyDecision
  {
    hide Leads, LineageSound, Standing, Spacious, Serves, StageFreshness, CountsExact, WellFormed, StageChecks, Submits,
      Env.CollisionFree, CheckLineageKey, ValidateBindingFields, Env.NodeId, LineageAt, Young;
    var r := PolicyRequest(x, ops);
    LineSound(x, ops, s);
    PolicySubmits(x, ops);
    LineIs(x, s, r);
    node := NewNode(x.env, BlankCore(Lid(x), r).(stateDigest := 0), Declared);
    NoEdgeChecked(x.env, Acquired(x.env, s, r), Line(x, s), Lid(x), r, node);
  }

  /** The record the request builds is new. */
  lemma BuiltIsNew(x: Scene, ops: seq<Op>, s: Store, core: NodeCore)
    requires Staged(x) && On(x, ops, s) && AttemptKeyOf(core.authority) !in Line(x, s).attempts
    ensures x.env.NodeId(core) != 0 && x.env.NodeId(core) !in Line(x, s).graph.nodes
  {
    hide On, LineageSound, Standing, CountsExact, WellFormed, CheckLineageKey, ValidateBindingFields, Line;
    LineSound(x, ops, s);
    PresentIdWasAttempted(x.env, Lid(x), Line(x, s), core);
  }

  /** A request for one edge to a present record, once its record is built. */
  lemma OneEdgePrompts(x: Scene, ops: seq<Op>, s: Store, c: ApiCall, r: Request, node: Node, spec: EdgeSpec, t: Node)
    returns (e: Edge)
    requires Poised(x, ops, s) && Submits(x, ops, c, r)
    requires StageBuild(x.env, Acquired(x.env, s, r), Line(x, s), Lid(x), r) == Proceed(node, [])
    requires node.id == x.env.NodeId(node.core) && node.core.authority == r.authority &&
             node.core.bindings == x.bindings
    requires Aims(Line(x, s), r, spec, t, node)
    ensures Prompts(x, ops, s, c, r, node, [e])
    ensures e.from == node.id && e.to == t.id && e.etype == spec.etype
  {
    hide Leads, LineageSound, Standing, Spacious, Serves, StageFreshness, CountsExact, WellFormed, StageChecks,
      StageBuild, Env.CollisionFree, CheckLineageKey, ValidateBindingFields, Env.NodeId, LineageAt, Normalize, Aims,
      OneEdge, AllOutward, SizeWithin, BoundAt, IndexedWithin;
    LineSound(x, ops, s);
    LineIs(x, s, r);
    BuiltIsNew(x, ops, s, node.core);
    e := OneEdge(x.env, Lid(x), r, node, t, spec);
    AimsAtPresent(Line(x, s), r, spec, t, node);
    OneEdgeBuilt(x.env, Acquired(x.env, s, r), Line(x, s), Lid(x), r, node, spec, t);
    OneEdgeChecked(x.env, Acquired(x.env, s, r), Line(x, s), Lid(x), r, node, spec, t);
  }

  lemma AimsAtPresent(lin: Lineage, r: Request, spec: EdgeSpec, t: Node, node: Node)
    requires Aims(lin, r, spec, t, node)
    ensures r.kind != LinkKind && r.edges == [spec]
  {
  }

  /** The record the lineage stands at. */
  lemma CurrentRecord(x: Scene, ops: seq<Op>, s: Store) returns (n: Node)
    requires Staged(x) && On(x, ops, s) && Line(x, s).state.generation != 0
    ensures HoldsRecord(Line(x, s).graph, n) && n.id == Line(x, s).state.currentNode && n.id != 0
    ensures n.IsRouteState() && n.core.generation == Line(x, s).state.generation
  {
    hide On, Staged, LineageSound, CountsExact, Line;
    LineSound(x, ops, s);
    n := Line(x, s).graph.nodes[Line(x, s).state.currentNode];
  }

  lemma SuccessorPrompts(x: Scene, ops: seq<Op>, s: Store, generation: nat) returns (node: Node, e: Edge)
    requires Poised(x, ops, s) && 0 < Line(x, s).state.generation < generation
    ensures
      var current := Line(x, s).state.currentNode;
      && Prompts(x, ops, s, SuccessorCall(x, ops, generation, current), SuccessorRequest(x, ops, generation, current),
                 node, [e])
      && e.from == node.id && e.to == current && e.etype == Supersedes
  {
    hide Leads, LineageSound, Standing, Spacious, Serves, StageFreshness, CountsExact, WellFormed, StageChecks, Submits,
      Env.CollisionFree, CheckLineageKey, ValidateBindingFields, Env.NodeId, LineageAt, SizeWithin, BoundAt, Prompts;
    var t := CurrentRecord(x, ops, s);
    var r := SuccessorRequest(x, ops, generation, t.id);
    LineSound(x, ops, s);
    SuccessorSubmits(x, ops, generation, t.id);
    LineIs(x, s, r);
    node := NewNode(x.env, BlankCore(Lid(x), r), Current);
    e := OneEdgePrompts(x, ops, s, SuccessorCall(x, ops, generation, t.id), r, node, SupersedingSpec(t.id), t);
  }

  lemma CorrectionPrompts(x: Scene, ops: seq<Op>, s: Store, t: Node) returns (node: Node, e: Edge)
    requires Poised(x, ops, s) && HoldsRecord(Line(x, s).graph, t) && t.IsRouteState()
    ensures Prompts(x, ops, s, CorrectionCall(x, ops, t.id), CorrectionRequest(x, ops, t.id), node, [e])
    ensures e.from == node.id && e.to == t.id
  {
    hide Leads, LineageSound, Standing, Spacious, Serves, StageFreshness, CountsExact, StageChecks, Submits,
      Env.CollisionFree, CheckLineageKey, ValidateBindingFields, Env.NodeId, LineageAt, Young, Prompts;
    var r := CorrectionRequest(x, ops, t.id);
    LineSound(x, ops, s);
    CorrectionSubmits(x, ops, t.id);
    LineIs(x, s, r);
    node := BuildCorrection(x.env, Lid(x), r, t).node;
    e := OneEdgePrompts(x, ops, s, CorrectionCall(x, ops, t.id), r, node,
                        EdgeSpec(Corrects, t.id, CorrectionReason, RouteFabric, []), t);
  }

  lemma InvalidationPrompts(x: Scene, ops: seq<Op>, s: Store, t: Node) returns (node: Node, e: Edge)
    requires Poised(x, ops, s) && HoldsRecord(Line(x, s).graph, t) && t.lifecycle !in {Retired, Revoked}
    ensures Prompts(x, ops, s, InvalidationCall(x, ops, t.id), InvalidationRequest(x, ops, t.id), node, [e])
  {
    hide Leads, LineageSound, Standing, Spacious, Serves, StageFreshness, CountsExact, StageChecks, Submits,
      Env.CollisionFree, CheckLineageKey, ValidateBindingFields, Env.NodeId, LineageAt, Young, Prompts;
    var r := InvalidationRequest(x, ops, t.id);
    LineSound(x, ops, s);
    InvalidationSubmits(x, ops, t.id);
    LineIs(x, s, r);
    node := BuildAction(x.env, Line(x, s), Lid(x), r, t).node;
    e := OneEdgePrompts(x, ops, s, InvalidationCall(x, ops, t.id), r, node,
                        EdgeSpec(Invalidates, t.id, InvalidationReason, AdministrativeSource, []), t);
  }

  lemma NothingReaches(g: Graph, a: nat, b: nat)
    requires g.edges == map[] && a != b
    ensures !Reaches(EdgeArcs(g), a, b)
  {
    assert EdgeArcs(g) == {};
    NothingReachesSource(EdgeArcs(g), a, b);
  }

  /** A link between two records of a lineage without edges. */
  lemma LinkPrompts(x: Scene, ops: seq<Op>, s: Store, from: Node, to: Node) returns (node: Node, e: Edge)
    requires Poised(x, ops, s) && Line(x, s).graph.edges == map[] && from.id != to.id
    requires HoldsRecord(Line(x, s).graph, from) && HoldsRecord(Line(x, s).graph, to)
    ensures Prompts(x, ops, s, LinkCall(x, ops, from.id, to.id), LinkRequest(x, ops, from.id, to.id), node, [e])
  {
    hide Leads, LineageSound, Standing, Serves, CountsExact, Submits, Env.CollisionFree, CheckLineageKey,
      ValidateBindingFields, Env.NodeId, LineageAt, Young, Reaches;
    var r := LinkRequest(x, ops, from.id, to.id);
    LineSound(x, ops, s);
    LinkSubmits(x, ops, from.id, to.id);
    LineIs(x, s, r);
    NothingReaches(Line(x, s).graph, to.id, from.id);
    node := NewNode(x.env, BlankCore(Lid(x), r), Declared);
    e := x.env.FinalizeEdge(RawLink(Lid(x), r, from, to));
    assert BuildLink(x.env, Line(x, s).graph, Lid(x), r) == Success(e);
  }
}
