// The commit pipeline (src/store.cpp:417): stages 3 to 6 authorise the caller, stages 7 to 13
// decide without changing anything, stage 14 changes one lineage, the indexes and the ledger.
module CommitPipeline {
  import opened Types
  import opened Ordering
  import opened GraphModel
  import opened StoreTypes
  import opened CurrentnessModel

  datatype CommitResult = CommitResult(store: Store, outcome: Outcome, publication: Option<Publication>)

  // ---------------------------------------------------------------------------------------
  // Stages 3 to 6: caller identity, epoch, live worker, authority scope
  // ---------------------------------------------------------------------------------------

  function LineageIdOf(env: Env, r: Request): nat {
    if r.explicitLineage.Some? then r.explicitLineage.value else env.lineageIdOf(r.key)
  }

  function AttemptKeyOf(a: Authority): AttemptKey {
    (a.publisher, a.attempt)
  }

  function Authorize(env: Env, s: Store, r: Request): Outcome {
    if !r.authority.HasIdentity() then Unauthorized
    else if s.marks.epoch == 0 || r.authority.epoch != s.marks.epoch then StaleEpochOutcome
    else if LivenessOf(s.publishers, (r.authority.publisher, r.authority.boot)) != Live
    then StaleWorker
    else if LineageIdOf(env, r) != env.lineageIdOf(r.key) then MalformedRequest
    else if !r.authority.scope.Permits(LineageIdOf(env, r), r.key.route) then Unauthorized
    else Ok
  }

  /** acquire_lineage: find the lineage or create it empty; nothing when the bound is reached. */
  function Acquire(env: Env, s: Store, lid: nat, key: LineageKey): Option<Store> {
    if lid in s.lineages then Some(s)
    else if |s.lineages| >= env.limits.maxLineages then None
    else Some(s.(lineages := s.lineages[lid := NewLineage(lid, key)],
                 routeIndex := s.routeIndex[key.route := lid]))
  }

  // ---------------------------------------------------------------------------------------
  // Stages 7 to 13
  // ---------------------------------------------------------------------------------------

  datatype Verdict =
    | Reject(outcome: Outcome)
    | Answer(outcome: Outcome, publication: Publication)
    | Proceed(node: Node, edges: seq<Edge>)

  function StageLifecycle(lin: Lineage): Outcome {
    if lin.state.lifecycle == RetiredLineage then RetiredOutcome
    else if lin.state.lifecycle == RevokedLineage then RevokedOutcome
    else Ok
  }

  function StageExpected(lin: Lineage, marks: Watermarks, a: Authority): Outcome {
    if a.expectedLineage.Some? && a.expectedLineage.value != lin.state.lineageGeneration
    then StaleLineageGeneration
    else if a.expectedStore.Some? && a.expectedStore.value != marks.store
    then StaleStoreGeneration
    else Ok
  }

  function PublicationOf(lin: Lineage, marks: Watermarks, node: nat, edges: seq<nat>,
                         lifecycle: NodeLifecycle, currentness: Currentness): Publication {
    Publication(lin.state.id, node, edges, lin.state.lineageGeneration, marks.store, lifecycle,
                currentness)
  }

  /** Stage 9: a known attempt is an exact replay or a conflict. */
  function StageReplay(env: Env, lin: Lineage, marks: Watermarks, r: Request): Verdict
    requires AttemptKeyOf(r.authority) in lin.attempts
  {
    var record := lin.attempts[AttemptKeyOf(r.authority)];
    if record.request == env.RequestDigest(r)
    then Answer(Idempotent, PublicationOf(lin, marks, record.node, record.edges, record.lifecycle,
                                          record.currentness))
    else Reject(Conflict)
  }

  function BlankCore(lid: nat, r: Request): NodeCore {
    NodeCore(lid, r.nodeKind, if r.kind == RouteStateKind then r.key.route else r.route,
             r.generation, r.stateDigest, r.reason, r.source, r.rootReason, r.evidence,
             r.authority, r.bindings, None, None)
  }

  function NewNode(env: Env, core: NodeCore, lifecycle: NodeLifecycle): Node {
    Node(env.NodeId(core), core, lifecycle, HistoricalOnly, false, false, None)
  }

  /** The record already published for this generation of this route, if this lineage holds it. */
  function ExistingGeneration(s: Store, lin: Lineage, r: Request): Option<Node> {
    if (r.key.route, r.generation) !in s.indexes.generation then None
    else
      var id := s.indexes.generation[(r.key.route, r.generation)];
      if id != 0 && id in lin.graph.nodes then Some(lin.graph.nodes[id]) else None
  }

  function BuildRouteState(env: Env, s: Store, lin: Lineage, lid: nat, r: Request): Verdict {
    var core := BlankCore(lid, r);
    var existing := ExistingGeneration(s, lin, r);
    if r.generation < lin.state.generation then Reject(StaleRouteOutcome)
    else if existing.Some? then
      var e := existing.value;
      var probe := core.(authority := core.authority.(attempt := e.core.authority.attempt));
      if env.NodeId(probe) == e.id
      then Answer(Duplicate, PublicationOf(lin, s.marks, e.id,
                                           Sorted(EdgesAt(lin.graph, Outgoing, e.id)),
                                           e.lifecycle, e.currentness))
      else Reject(Conflict)
    else if r.rootReason.None? && r.edges == [] then Reject(InvalidDerivation)
    else if r.rootReason.Some? && lin.state.generation != 0 then Reject(InvalidDerivation)
    else if r.rootReason.Some? &&
            exists i :: 0 <= i < |r.edges| && IsSuccessorRelation(r.edges[i].etype)
    then Reject(InvalidDerivation)
    else Proceed(NewNode(env, core, Current), [])
  }

  function MissingTarget(s: Store, id: nat, absent: Outcome): Outcome {
    if id in s.indexes.owner then InvalidDerivation else absent
  }

  function BuildCorrection(env: Env, lid: nat, r: Request, t: Node): Verdict {
    if t.core.kind == CompactedSummary then Reject(InvalidDerivation)
    else
      var core := BlankCore(lid, r).(
        kind := t.core.kind, route := t.core.route, generation := t.core.generation,
        stateDigest := if r.stateDigest == 0 then t.core.stateDigest else r.stateDigest,
        rootReason := t.core.rootReason, corrects := Some(t.id));
      Proceed(NewNode(env, core, Current), [])
  }

  function BuildAction(env: Env, lin: Lineage, lid: nat, r: Request, t: Node): Verdict {
    if t.lifecycle == Retired || t.lifecycle == Revoked then Reject(InvalidDerivation)
    else if r.kind == RevalidationKind && !r.allowNonCurrent && t.id != lin.state.currentNode
    then Reject(InvalidDerivation)
    else
      var core := BlankCore(lid, r).(
        kind := AdministrativeAction, route := t.core.route, generation := t.core.generation,
        stateDigest := t.core.stateDigest);
      Proceed(NewNode(env, core, Current), [])
  }

  /** Stage 10: the record the request creates (a link creates none). */
  function StageBuild(env: Env, s: Store, lin: Lineage, lid: nat, r: Request): Verdict {
    match r.kind
    case RouteStateKind => BuildRouteState(env, s, lin, lid, r)
    case DeclarationKind =>
      Proceed(NewNode(env, BlankCore(lid, r).(stateDigest := 0), Declared), [])
    case LinkKind => Proceed(NewNode(env, BlankCore(lid, r), Declared), [])
    case _ =>
      if r.target !in lin.graph.nodes then Reject(MissingTarget(s, r.target, NodeNotFound))
      else
        var t := lin.graph.nodes[r.target];
        if r.kind == CorrectionKind then BuildCorrection(env, lid, r, t)
        else BuildAction(env, lin, lid, r, t)
  }

  /** Stage 11: an announced path authority or policy must be bound exactly; a convergence plan
      must not be superseded. */
  function StageFreshness(marks: Watermarks, b: Bindings): Outcome {
    if b.path.Some? && marks.path != 0 && b.path.value.generation < marks.path
    then StalePathOutcome
    else if b.path.Some? && marks.path != 0 && b.path.value.generation > marks.path
    then InvalidSourceGeneration
    else if b.policy.Some? && marks.policy != 0 && b.policy.value < marks.policy
    then StalePolicyOutcome
    else if b.policy.Some? && marks.policy != 0 && b.policy.value > marks.policy
    then InvalidSourceGeneration
    else if b.convergence.Some? && marks.plan != 0 && b.convergence.value.generation < marks.plan
    then StalePlan
    else Ok
  }

  predicate FromNewNode(t: EdgeType) {
    t != RevokedBy && t != RetiredBy
  }

  /** The edge an edge specification asks for, before its identity is derived. */
  function RawEdge(lid: nat, r: Request, node: Node, t: Node, spec: EdgeSpec): Edge {
    var outward := FromNewNode(spec.etype);
    var chained := IsSuccessorRelation(spec.etype);
    Edge(0, 0, lid, spec.etype, if outward then node.id else t.id,
         if outward then t.id else node.id,
         if chained then t.core.generation else 0,
         if chained then node.core.generation else 0,
         spec.reason, spec.source, spec.evidence, r.authority)
  }

  ghost function BuildEdge(env: Env, s: Store, g: Graph, lid: nat, r: Request, node: Node,
                           spec: EdgeSpec): Result<Edge> {
    if spec.target !in g.nodes then Failure(MissingTarget(s, spec.target, MissingParent))
    else
      var t := g.nodes[spec.target];
      if IsSuccessorRelation(spec.etype) && !t.IsRouteState() then Failure(InvalidDerivation)
      else
        var e := env.FinalizeEdge(RawEdge(lid, r, node, t, spec));
        if ValidateEdge(e) != Ok then Failure(ValidateEdge(e))
        else if CheckAddEdge(g, e.from, e.to) != Ok then Failure(CheckAddEdge(g, e.from, e.to))
        else Success(e)
  }

  ghost function BuildEdges(env: Env, s: Store, g: Graph, lid: nat, r: Request, node: Node,
                            specs: seq<EdgeSpec>): Result<seq<Edge>> {
    if specs == [] then Success([])
    else
      var first := BuildEdge(env, s, g, lid, r, node, specs[0]);
      if first.Failure? then Failure(first.outcome)
      else
        var rest := BuildEdges(env, s, g, lid, r, node, specs[1..]);
        if rest.Failure? then rest else Success([first.value] + rest.value)
  }

  function RawLink(lid: nat, r: Request, from: Node, to: Node): Edge {
    var chained := IsSuccessorRelation(r.linkType);
    Edge(0, 0, lid, r.linkType, r.linkFrom, r.target,
         if chained then to.core.generation else 0, if chained then from.core.generation else 0,
         r.reason, r.source, r.evidence, r.authority)
  }

  ghost function BuildLink(env: Env, g: Graph, lid: nat, r: Request): Result<Edge> {
    if r.linkFrom !in g.nodes || r.target !in g.nodes then Failure(MissingParent)
    else
      var from, to := g.nodes[r.linkFrom], g.nodes[r.target];
      if IsSuccessorRelation(r.linkType) && (!from.IsRouteState() || !to.IsRouteState())
      then Failure(InvalidDerivation)
      else
        var e := env.FinalizeEdge(RawLink(lid, r, from, to));
        if ValidateEdge(e) != Ok then Failure(ValidateEdge(e))
        else if CheckAddEdge(g, e.from, e.to) != Ok then Failure(CheckAddEdge(g, e.from, e.to))
        else Success(e)
  }

  /** Stage 12: graph validation. */
  ghost function StageEdges(env: Env, s: Store, lin: Lineage, lid: nat, r: Request, node: Node): Result<seq<Edge>> {
    if r.kind == LinkKind then
      var e := BuildLink(env, lin.graph, lid, r);
      if e.Failure? then Failure(e.outcome) else Success([e.value])
    else BuildEdges(env, s, lin.graph, lid, r, node, r.edges)
  }

  /** Stage 13: resource limits. */
  function StageLimits(env: Env, lin: Lineage, r: Request, edges: seq<Edge>): Outcome {
    if |r.edges| > env.limits.maxBatch then ResourceLimit
    else if r.kind != LinkKind && |lin.graph.nodes| >= env.limits.maxNodes then ResourceLimit
    else if r.kind != LinkKind && |lin.graph.edges| + |edges| > env.limits.maxEdges then ResourceLimit
    else if r.kind == LinkKind && |lin.graph.edges| >= env.limits.maxEdges then ResourceLimit
    else if lin.state.historyCount >= env.limits.maxHistory then ResourceLimit
    else if |lin.attempts| >= env.limits.maxAttempts then ResourceLimit
    else Ok
  }

  /** Stages 11 to 13 for the record stage 10 built. */
  ghost function StageChecks(env: Env, s: Store, lin: Lineage, lid: nat, r: Request, node: Node): (v: Verdict)
    ensures v.Proceed? && r.kind == LinkKind ==> |v.edges| == 1
  {
    if StageFreshness(s.marks, node.core.bindings) != Ok
    then Reject(StageFreshness(s.marks, node.core.bindings))
    else
      var edges := StageEdges(env, s, lin, lid, r, node);
      if edges.Failure? then Reject(edges.outcome)
      else if StageLimits(env, lin, r, edges.value) != Ok
      then Reject(StageLimits(env, lin, r, edges.value))
      else Proceed(node, edges.value)
  }

  /** Stages 7 to 13: every decision, no change. */
  ghost function Admit(env: Env, s: Store, lin: Lineage, lid: nat, r: Request): (v: Verdict)
    ensures v.Proceed? && r.kind == LinkKind ==> |v.edges| == 1
  {
    if StageLifecycle(lin) != Ok then Reject(StageLifecycle(lin))
    else if AttemptKeyOf(r.authority) in lin.attempts then StageReplay(env, lin, s.marks, r)
    else if StageExpected(lin, s.marks, r.authority) != Ok
    then Reject(StageExpected(lin, s.marks, r.authority))
    else
      var built := StageBuild(env, s, lin, lid, r);
      if !built.Proceed? then built else StageChecks(env, s, lin, lid, r, built.node)
  }

  // ---------------------------------------------------------------------------------------
  // Stage 14
  // ---------------------------------------------------------------------------------------

  /** What inserting the batch gave: the graph, the edges to report, and the first refusal. */
  datatype Insertion = Insertion(graph: Graph, outcome: Outcome, edges: seq<Edge>, refused: Outcome)

  ghost function InsertEdges(g: Graph, edges: seq<Edge>, limits: Limits, outcome: Outcome): Insertion
    decreases |edges|
  {
    if edges == [] then Insertion(g, outcome, [], Ok)
    else
      var o := AddEdgeOutcome(g, edges[0], limits);
      if o == Duplicate then InsertEdges(g, edges[1..], limits, outcome)
      else if o != Ok then Insertion(g, outcome, [], o)
      else InsertEdges(WithEdge(g, edges[0]), edges[1..], limits,
                       if outcome == Duplicate then Linked else outcome)
  }

  ghost function InsertRecord(g: Graph, node: Node, edges: seq<Edge>, limits: Limits): Insertion {
    var o := AddNodeOutcome(g, node, limits);
    if o != Ok && o != Duplicate then Insertion(g, Created, edges, o)
    else InsertEdges(AddNode(g, node, limits), edges, limits,
                     if o == Duplicate then Duplicate else Created).(edges := edges)
  }

  /** The link edge is reported twice: once by stage 12 and once by stage 14. */
  ghost function InsertLink(g: Graph, edge: Edge, limits: Limits): Insertion {
    var o := AddEdgeOutcome(g, edge, limits);
    if o == Ok then Insertion(WithEdge(g, edge), Linked, [edge, edge], Ok)
    else if o == Duplicate then Insertion(g, Duplicate, [edge, edge], Ok)
    else Insertion(g, Linked, [edge], o)
  }

  ghost function InsertBatch(g: Graph, r: Request, node: Node, edges: seq<Edge>, limits: Limits): Insertion {
    hide *;
    if r.kind == LinkKind && edges != [] then InsertLink(g, edges[0], limits)
    else InsertRecord(g, node, edges, limits)
  }

  /** The lineage after the kind-specific transition, with the edges it added and the record it
      displaced or acted on. */
  datatype Moved = Moved(state: LineageState, graph: Graph, edges: seq<Edge>, touched: set<nat>)

  function DisplacedLifecycle(edges: seq<Edge>, previous: nat): NodeLifecycle {
    if exists i :: 0 <= i < |edges| && edges[i].etype == Supersedes && edges[i].to == previous
    then Superseded
    else Historical
  }

  function MoveRouteState(st: LineageState, g: Graph, edges: seq<Edge>, r: Request, node: Node): Moved {
    var displaced := st.currentNode in g.nodes && st.currentNode != node.id;
    var h := if displaced
             then UpdateNodeState(g, st.currentNode, DisplacedLifecycle(edges, st.currentNode),
                                  HistoricalOnly, false)
             else g;
    var st' := st.(generation := r.generation, currentNode := node.id,
                   lifecycle := if st.lifecycle == Withdrawn then Active else st.lifecycle);
    Moved(st', h, [], if displaced then {st.currentNode} else {})
  }

  function Rebound(env: Env, e: Edge, from: nat, authority: Authority): Edge {
    env.FinalizeEdge(e.(from := from, authority := authority))
  }

  /** Re-binds the listed edges of a corrected record to its replacement. */
  ghost function RebindAll(env: Env, original: Graph, g: Graph, ids: seq<nat>, from: nat,
                           authority: Authority): Insertion
    decreases |ids|
  {
    if ids == [] then Insertion(g, Ok, [], Ok)
    else if ids[0] !in original.edges then RebindAll(env, original, g, ids[1..], from, authority)
    else
      var e := original.edges[ids[0]];
      var rebound := Rebound(env, e, from, authority);
      if !IsSuccessorRelation(e.etype) || AddEdgeOutcome(g, rebound, env.limits) != Ok
      then RebindAll(env, original, g, ids[1..], from, authority)
      else
        var rest := RebindAll(env, original, WithEdge(g, rebound), ids[1..], from, authority);
        rest.(edges := [rebound] + rest.edges)
  }

  ghost function MoveCorrection(env: Env, st: LineageState, g: Graph, r: Request, node: Node): Moved {
    var ids := Sorted(EdgesAt(g, Outgoing, r.target));
    var rebound := RebindAll(env, g, g, ids, node.id, r.authority);
    var h := UpdateNodeState(SetCorrectedBy(rebound.graph, r.target, node.id), r.target, Invalid,
                             HistoricalOnly, false);
    var st' := if st.currentNode == r.target then st.(currentNode := node.id) else st;
    Moved(st', h, rebound.edges, {r.target, node.id})
  }

  function MoveTarget(st: LineageState, g: Graph, r: Request): Moved {
    match r.kind
    case WithdrawalKind =>
      Moved(st.(lifecycle := Withdrawn),
            UpdateNodeState(g, r.target, Historical, HistoricalOnly, false), [], {r.target})
    case RevocationKind =>
      Moved(st.(lifecycle := RevokedLineage),
            UpdateNodeState(g, r.target, Revoked, HistoricalOnly, false), [], {r.target})
    case RetirementKind =>
      Moved(st.(lifecycle := RetiredLineage),
            UpdateNodeState(g, r.target, Retired, HistoricalOnly, false), [], {r.target})
    case RevalidationKind =>
      Moved(st.(authorityGeneration := Saturating(st.authorityGeneration)),
            MarkRevalidated(UpdateNodeState(g, r.target, Current, NeedsRevalidation, false), r.target),
            [], {r.target})
    case InvalidationKind =>
      Moved(st, UpdateNodeState(g, r.target, Invalid, HistoricalOnly, false), [], {r.target})
    case _ => Moved(st, g, [], {})
  }

  ghost function Move(env: Env, st: LineageState, g: Graph, edges: seq<Edge>, r: Request, node: Node): Moved {
    if r.kind == RouteStateKind then MoveRouteState(st, g, edges, r, node)
    else if r.kind == CorrectionKind then MoveCorrection(env, st, g, r, node)
    else MoveTarget(st, g, r)
  }

  function Promote(g: Graph, id: nat): Graph {
    if id in g.nodes && g.nodes[id].lifecycle == Declared
    then UpdateNodeState(g, id, Current, g.nodes[id].currentness, false)
    else g
  }

  /** Evidence relations promote a declared record to current authority. */
  function PromoteAll(g: Graph, edges: seq<Edge>): Graph
    decreases |edges|
  {
    if edges == [] then g
    else PromoteAll(if IsEvidenceRelation(edges[0].etype) then Promote(g, edges[0].to) else g,
                    edges[1..])
  }

  /** A generation that has reached the 64-bit boundary stays there. */
  function Saturating(generation: nat): nat {
    if Next(generation).Some? then Next(generation).value else generation
  }

  function HistoryRecords(g: Graph): set<nat> {
    set id | id in g.nodes && IsHistoryRecord(g.nodes[id])
  }

  function EdgeIds(edges: seq<Edge>): seq<nat> {
    seq(|edges|, i requires 0 <= i < |edges| => edges[i].id)
  }

  function HeadSet(edges: seq<Edge>): set<nat> {
    set i | 0 <= i < |edges| :: edges[i].to
  }

  /** The records re-evaluated after the change. */
  function Affected(r: Request, node: Node, edges: seq<Edge>, moved: Moved): set<nat> {
    (if r.kind == LinkKind then {r.linkFrom, r.target} else {node.id} + HeadSet(edges)) +
    moved.touched + {moved.state.currentNode}
  }

  /** Lineage bookkeeping that every accepted request does before its own transition. */
  function Bookkeep(st: LineageState, r: Request): LineageState {
    var st' := st.(lineageGeneration := Saturating(st.lineageGeneration));
    if st.lastBoot == 0 || st.lastBoot != r.authority.boot
    then st'.(authorityGeneration := Saturating(st.authorityGeneration), lastBoot := r.authority.boot)
    else st'
  }

  function Counted(st: LineageState, g: Graph, digest: nat): LineageState {
    st.(nodeCount := |g.nodes|, edgeCount := |g.edges|, historyCount := |HistoryRecords(g)|,
        lastDigest := digest)
  }

  /** Stage 14 indexes a new record by everything its currentness depends on. */
  function IndexNode(x: Indexes, n: Node, lid: nat): Indexes {
    var b := n.core.bindings;
    var policy := if b.policy.Some? then IndexAdd(x.policy, b.policy.value, n.id) else x.policy;
    Indexes(
      x.owner[n.id := lid],
      if n.IsRouteState() then x.generation[(n.core.route, n.core.generation) := n.id] else x.generation,
      if b.path.Some? then IndexAdd(x.pathAuthority, b.path.value.generation, n.id) else x.pathAuthority,
      if b.adaptation.Some? then IndexAdd(policy, b.adaptation.value.policy, n.id) else policy,
      if b.adaptation.Some? then IndexAdd(x.evidence, b.adaptation.value.evidence, n.id) else x.evidence,
      IndexAdd(x.boot, n.core.authority.boot, n.id))
  }

  /** The accepted change of one lineage, from the graph with the batch inserted. */
  ghost function Settle(env: Env, s: Store, lin: Lineage, r: Request, node: Node, ins: Insertion): Lineage {
    hide *;
    var moved := Move(env, Bookkeep(lin.state, r), ins.graph, ins.edges, r, node);
    var edges := ins.edges + moved.edges;
    var promoted := if r.kind == LinkKind then Promote(moved.graph, r.target)
                    else PromoteAll(moved.graph, edges);
    var st := Counted(moved.state, promoted, env.RequestDigest(r));
    var g := Refresh(st, promoted, s.marks, s.publishers, Affected(r, node, ins.edges, moved));
    var named := if r.kind == LinkKind then r.linkFrom else node.id;
    var record := AttemptRecord(
      env.RequestDigest(r), named, EdgeIds(edges), ins.outcome,
      if named in g.nodes then g.nodes[named].lifecycle else Current,
      if named in g.nodes then g.nodes[named].currentness else HistoricalOnly);
    Lineage(st, g, lin.attempts[AttemptKeyOf(r.authority) := record])
  }

  /** A store whose one lineage is replaced. */
  function WithLineage(s: Store, lid: nat, lin: Lineage): Store {
    s.(lineages := s.lineages[lid := lin])
  }

  /** The store at its next generation. */
  function Marked(s: Store): Store {
    s.(marks := s.marks.(store := s.marks.store + 1))
  }

  /** The result of a stage 14 that is not stopped. */
  function Concluded(s: Store, lid: nat, r: Request, node: Node, outcome: Outcome, settled: Lineage): CommitResult {
    var key := AttemptKeyOf(r.authority);
    var record := if key in settled.attempts then settled.attempts[key]
                  else AttemptRecord(0, 0, [], outcome, Current, HistoricalOnly);
    CommitResult(
      WithLineage(Marked(s), lid, settled).(
        indexes := if outcome != Duplicate && r.kind != LinkKind then IndexNode(s.indexes, node, lid) else s.indexes),
      outcome,
      Some(PublicationOf(settled, Marked(s).marks, record.node, record.edges, record.lifecycle, record.currentness)))
  }

  /** Stage 14 once the batch is in. A refusal or an exhausted generation leaves what was inserted
      behind. */
  ghost function Completed(env: Env, s: Store, lid: nat, r: Request, node: Node, ins: Insertion): CommitResult {
    var lin := LineageAt(s, lid);
    var partial := WithLineage(s, lid, lin.(graph := ins.graph));
    if ins.refused != Ok then CommitResult(partial, ins.refused, None)
    else if Next(s.marks.store).None? then CommitResult(partial, ResourceLimit, None)
    else if Next(lin.state.lineageGeneration).None? then CommitResult(Marked(partial), ResourceLimit, None)
    else Concluded(s, lid, r, node, ins.outcome, Settle(env, Marked(s), lin, r, node, ins))
  }

  /** Stage 14. */
  ghost function Apply(env: Env, s: Store, lid: nat, r: Request, node: Node, edges: seq<Edge>): CommitResult {
    Completed(env, s, lid, r, node, InsertBatch(LineageAt(s, lid).graph, r, node, edges, env.limits))
  }

  /** The pipeline from stage 7 on. */
  ghost function Pursued(env: Env, s: Store, lid: nat, r: Request): CommitResult {
    match Admit(env, s, LineageAt(s, lid), lid, r)
    case Reject(o) => CommitResult(s, o, None)
    case Answer(o, p) => CommitResult(s, o, Some(p))
    case Proceed(node, edges) => Apply(env, s, lid, r, node, edges)
  }

  /** The single authoritative commit pipeline. */
  ghost function Commit(env: Env, s: Store, r: Request): CommitResult {
    if Authorize(env, s, r) != Ok then CommitResult(s, Authorize(env, s, r), None)
    else
      match Acquire(env, s, LineageIdOf(env, r), r.key)
      case None => CommitResult(s, ResourceLimit, None)
      case Some(s1) => Pursued(env, s1, LineageIdOf(env, r), r)
  }
}
