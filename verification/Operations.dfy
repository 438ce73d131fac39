// The other operations of the store: the publisher registry and dependency notifications
// (src/store_api.cpp), compaction (src/store_query.cpp), two-phase sessions, and runs.
module Operations {
  import opened Types
  import opened Ordering
  import opened Digraph
  import opened GraphModel
  import opened StoreTypes
  import opened CurrentnessModel
  import opened Requests
  import opened CommitPipeline

  datatype OpResult = OpResult(store: Store, outcome: Outcome)

  // ---------------------------------------------------------------------------------------
  // Publisher registry
  // ---------------------------------------------------------------------------------------

  /** The first registration sets the epoch; a recovered coordinator may raise it once. */
  function RegisterEpoch(s: Store, epoch: nat): Option<Store> {
    if s.marks.epoch == 0 then Some(s.(marks := s.marks.(epoch := epoch)))
    else if s.marks.epoch == epoch then Some(s)
    else if s.recovered && !s.epochBootstrapped && epoch > s.marks.epoch
    then Some(s.(marks := s.marks.(epoch := epoch), epochBootstrapped := true))
    else None
  }

  /** The other live boots of the publisher, which a fresh registration fences for good. */
  function OtherLiveBoots(publishers: Registry, publisher: nat, boot: nat): set<PublisherKey> {
    set k | k in publishers && k.0 == publisher && k.1 != boot && publishers[k].live
  }

  function FenceAll(publishers: Registry, keys: set<PublisherKey>): Registry {
    map k | k in publishers ::
      if k in keys then publishers[k].(live := false, fenced := true) else publishers[k]
  }

  function BootNodes(x: Indexes, keys: set<PublisherKey>): set<nat> {
    set k, id | k in keys && id in IndexAt(x.boot, k.1) :: id
  }

  function Register(env: Env, s: Store, publisher: nat, boot: nat, epoch: nat, scope: Scope): OpResult {
    if publisher == 0 || boot == 0 || epoch == 0 then OpResult(s, Unauthorized)
    else
      var marked := RegisterEpoch(s, epoch);
      if marked.None? then OpResult(s, StaleEpochOutcome)
      else
        var s1 := marked.value;
        var key := (publisher, boot);
        if scope == NoScope then OpResult(s1, Unauthorized)
        else if key in s1.publishers && s1.publishers[key].fenced then OpResult(s1, StaleWorker)
        else if |s1.publishers| >= env.limits.maxPublishers then OpResult(s1, ResourceLimit)
        else
          var others := OtherLiveBoots(s1.publishers, publisher, boot);
          var s2 := s1.(publishers :=
            FenceAll(s1.publishers, others)[key := PublisherRecord(epoch, scope, true, false)]);
          OpResult(RefreshOwned(s2, BootNodes(s2.indexes, others)), Ok)
  }

  /** The checks every administrative call on the registry or the watermarks starts with. */
  function CheckAdministrator(s: Store, a: Authority): Outcome {
    if !a.HasIdentity() then Unauthorized
    else if s.marks.epoch == 0 || a.epoch != s.marks.epoch then StaleEpochOutcome
    else if LivenessOf(s.publishers, (a.publisher, a.boot)) != Live then StaleWorker
    else if a.scope != Fabric then Unauthorized
    else Ok
  }

  function Fence(s: Store, publisher: nat, boot: nat, a: Authority): OpResult {
    var key := (publisher, boot);
    if publisher == 0 || boot == 0 then OpResult(s, MalformedRequest)
    else if CheckAdministrator(s, a) != Ok then OpResult(s, CheckAdministrator(s, a))
    else if key !in s.publishers then OpResult(s, NodeNotFound)
    else
      var s1 := s.(publishers := FenceAll(s.publishers, {key}));
      OpResult(RefreshOwned(s1, BootNodes(s1.indexes, {key})), Updated)
  }

  // ---------------------------------------------------------------------------------------
  // Dependency notifications
  // ---------------------------------------------------------------------------------------

  datatype Notification =
    | PathAuthorityAdvance(path: nat)
    | PolicyAdvance(policy: nat)
    | EvidenceAdvance(evidence: nat)
    | PlanAdvance(plan: nat)
    | EpochAdvance(epoch: nat)
    | RouteAdvance
    | WorkerFence(publisher: nat, boot: nat)

  /** The records bound to a generation below the announced one. */
  function Below(index: ReverseIndex, generation: nat): set<nat> {
    set k, id | k in index && k < generation && id in index[k] :: id
  }

  /** A watermark never decreases; announcing it again changes nothing. */
  function AdvanceOutcome(mark: nat, value: nat): Outcome {
    if value == 0 then InvalidSourceGeneration
    else if mark != 0 && value == mark then Idempotent
    else if mark != 0 && value < mark then InvalidSourceGeneration
    else Updated
  }

  function NotificationOutcome(s: Store, n: Notification): Outcome {
    match n
    case PathAuthorityAdvance(v) => AdvanceOutcome(s.marks.path, v)
    case PolicyAdvance(v) => AdvanceOutcome(s.marks.policy, v)
    case EvidenceAdvance(v) => AdvanceOutcome(s.marks.evidence, v)
    case PlanAdvance(v) => AdvanceOutcome(s.marks.plan, v)
    case EpochAdvance(v) =>
      if v == 0 || v <= s.marks.epoch then InvalidSourceGeneration else Updated
    case RouteAdvance => MalformedRequest
    case WorkerFence(p, b) => if p == 0 || b == 0 then MalformedRequest else Updated
  }

  function AdvanceMarks(m: Watermarks, n: Notification): Watermarks {
    match n
    case PathAuthorityAdvance(v) => m.(path := v)
    case PolicyAdvance(v) => m.(policy := v)
    case EvidenceAdvance(v) => m.(evidence := v)
    case PlanAdvance(v) => m.(plan := v)
    case EpochAdvance(v) => m.(epoch := v)
    case _ => m
  }

  /** The records whose currentness the notification can change. */
  function Collected(x: Indexes, n: Notification): set<nat> {
    match n
    case PathAuthorityAdvance(v) => Below(x.pathAuthority, v)
    case PolicyAdvance(v) => Below(x.policy, v)
    case EvidenceAdvance(v) => Below(x.evidence, v)
    case EpochAdvance(_) => x.owner.Keys
    case WorkerFence(_, b) => IndexAt(x.boot, b)
    case _ => {}
  }

  function Unlive(publishers: Registry, key: PublisherKey): Registry {
    if key in publishers then publishers[key := publishers[key].(live := false)] else publishers
  }

  /** The store a notification re-evaluates. */
  function Announced(s: Store, n: Notification): Store {
    s.(marks := AdvanceMarks(s.marks, n).(store := s.marks.store + 1),
       publishers := if n.WorkerFence? then Unlive(s.publishers, (n.publisher, n.boot)) else s.publishers)
  }

  function Notify(s: Store, n: Notification, a: Authority): OpResult {
    if CheckAdministrator(s, a) != Ok then OpResult(s, CheckAdministrator(s, a))
    else if NotificationOutcome(s, n) != Updated then OpResult(s, NotificationOutcome(s, n))
    else if Next(s.marks.store).None? then OpResult(s.(marks := AdvanceMarks(s.marks, n)), ResourceLimit)
    else if n.WorkerFence? && (n.publisher, n.boot) !in s.publishers then OpResult(Announced(s, n), NodeNotFound)
    else OpResult(RefreshOwned(Announced(s, n), Collected(s.indexes, n)), Updated)
  }

  // ---------------------------------------------------------------------------------------
  // Compaction
  // ---------------------------------------------------------------------------------------

  datatype CompactOptions = CompactOptions(retainDepth: nat, maxCompactions: nat)

  /** The records within the retained depth of the current one. */
  ghost function AncestryOf(limits: Limits, lin: Lineage, options: CompactOptions): set<nat> {
    var depth := Effective(if options.retainDepth == 0 then limits.maxDepth else options.retainDepth, limits.maxDepth);
    Ball(EdgeArcs(lin.graph), lin.state.currentNode, depth)
  }

  /** The traversal that protects the present explanation protects nothing when it overflows. */
  ghost function RetainedAncestry(env: Env, lin: Lineage, options: CompactOptions): set<nat> {
    var ball := AncestryOf(env.limits, lin, options);
    if lin.state.currentNode in lin.graph.nodes && |ball| <= env.limits.maxResults && |ball| <= env.limits.maxVisited
    then ball else {}
  }

  ghost function Protected(env: Env, lin: Lineage, options: CompactOptions): set<nat> {
    {lin.state.currentNode} +
    (set id | id in lin.graph.nodes &&
              (lin.graph.nodes[id].currentness == IsCurrent || lin.graph.nodes[id].revalidationRequired)) +
    RetainedAncestry(env, lin, options)
  }

  ghost function Candidates(env: Env, lin: Lineage, options: CompactOptions): set<Pair> {
    set id | id in lin.graph.nodes && IsHistoryRecord(lin.graph.nodes[id]) &&
             id !in Protected(env, lin, options) :: (lin.graph.nodes[id].core.generation, id)
  }

  function Tombstone(env: Env, n: Node, a: Authority): Node {
    Node(n.id,
         n.core.(kind := CompactedSummary, reason := HistoryCompaction,
                 source := AdministrativeSource, authority := a, corrects := None,
                 rootReason := None, evidence := [], bindings := NO_BINDINGS,
                 compacted := Some(env.NodeId(n.core))),
         Historical, HistoricalOnly, false, n.revalidated, None)
  }

  datatype Compaction = Compaction(graph: Graph, count: nat, refused: Outcome)

  function CompactAll(env: Env, g: Graph, keys: seq<Pair>, budget: nat, a: Authority): Compaction
    decreases |keys|
  {
    if keys == [] || budget == 0 then Compaction(g, 0, Ok)
    else if keys[0].1 !in g.nodes then Compaction(g, 0, NodeNotFound)
    else
      var id := keys[0].1;
      var tombstone := Tombstone(env, g.nodes[id], a);
      var o := CompactNodeOutcome(g, id, tombstone);
      if o != Ok then Compaction(g, 0, o)
      else
        var rest := CompactAll(env, CompactNode(g, id, tombstone), keys[1..], budget - 1, a);
        rest.(count := rest.count + 1)
  }

  function CompactionBudget(env: Env, options: CompactOptions): nat {
    if options.maxCompactions == 0 then env.limits.maxBatch else options.maxCompactions
  }

  ghost function CompactLineage(env: Env, lin: Lineage, a: Authority, options: CompactOptions): Compaction {
    CompactAll(env, lin.graph, SortedPairs(Candidates(env, lin, options)), CompactionBudget(env, options), a)
  }

  /** The lineage after a compaction run: a refused tombstone leaves the counters stale. */
  function LineageAfter(lin: Lineage, done: Compaction): Lineage {
    var st := lin.state.(
      nodeCount := |done.graph.nodes|, edgeCount := |done.graph.edges|,
      compactedCount := lin.state.compactedCount + done.count,
      historyCount := |HistoryRecords(done.graph)|);
    if done.refused != Ok then lin.(graph := done.graph)
    else if done.count > 0 && Next(st.lineageGeneration).Some?
    then lin.(graph := done.graph, state := st.(lineageGeneration := st.lineageGeneration + 1))
    else lin.(graph := done.graph, state := st)
  }

  function AfterCompaction(s: Store, lid: nat, done: Compaction): OpResult {
    var lin := LineageAt(s, lid);
    var moved := done.refused == Ok && done.count > 0;
    var advanced := moved && Next(lin.state.lineageGeneration).Some? && Next(s.marks.store).Some?;
    OpResult(
      WithLineage(s, lid, LineageAfter(lin, done)).(marks := if advanced then Marked(s).marks else s.marks),
      if done.refused != Ok then done.refused else if moved && !advanced then ResourceLimit else Ok)
  }

  ghost function Compact(env: Env, s: Store, lid: nat, a: Authority, options: CompactOptions): OpResult {
    if lid == 0 then OpResult(s, MalformedRequest)
    else if !a.HasIdentity() then OpResult(s, Unauthorized)
    else if s.marks.epoch == 0 || a.epoch != s.marks.epoch then OpResult(s, StaleEpochOutcome)
    else if LivenessOf(s.publishers, (a.publisher, a.boot)) != Live then OpResult(s, StaleWorker)
    else if lid !in s.lineages then OpResult(s, LineageNotFound)
    else if !a.scope.Permits(lid, LineageAt(s, lid).state.key.route) then OpResult(s, Unauthorized)
    else AfterCompaction(s, lid, CompactLineage(env, LineageAt(s, lid), a, options))
  }

  // ---------------------------------------------------------------------------------------
  // Two-phase sessions
  // ---------------------------------------------------------------------------------------

  datatype DependencySnapshot = DependencySnapshot(
    marks: Watermarks, lineageGeneration: nat, routeGeneration: nat)

  function BeginPublication(env: Env, s: Store, r: Request): DependencySnapshot {
    var lid := env.lineageIdOf(r.key);
    if lid in s.lineages
    then DependencySnapshot(s.marks, s.lineages[lid].state.lineageGeneration,
                            s.lineages[lid].state.generation)
    else DependencySnapshot(s.marks, 0, 0)
  }

  function CheckSession(env: Env, s: Store, snapshot: DependencySnapshot, r: Request): Outcome {
    var lid := env.lineageIdOf(r.key);
    if lid in s.lineages && r.kind == RouteStateKind &&
       s.lineages[lid].state.generation != snapshot.routeGeneration
    then StaleRouteOutcome
    else if lid !in s.lineages && snapshot.lineageGeneration != 0 then StaleLineageGeneration
    else if s.marks.path != snapshot.marks.path then StalePathOutcome
    else if s.marks.policy != snapshot.marks.policy then StalePolicyOutcome
    else if s.marks.evidence != snapshot.marks.evidence then StaleEvidenceOutcome
    else if s.marks.plan != snapshot.marks.plan then StalePlan
    else if lid in s.lineages &&
            s.lineages[lid].state.lineageGeneration != snapshot.lineageGeneration
    then StaleLineageGeneration
    else if s.marks.epoch != snapshot.marks.epoch then StaleEpochOutcome
    else if s.marks.store != snapshot.marks.store then StaleStoreGeneration
    else Ok
  }

  ghost function CommitSession(env: Env, s: Store, snapshot: DependencySnapshot, r: Request): CommitResult {
    var o := CheckSession(env, s, snapshot, r);
    if o != Ok then CommitResult(s, o, None) else Commit(env, s, r)
  }

  // ---------------------------------------------------------------------------------------
  // Runs
  // ---------------------------------------------------------------------------------------

  datatype Op =
    | RegisterOp(publisher: nat, boot: nat, epoch: nat, scope: Scope)
    | FenceOp(publisher: nat, boot: nat, authority: Authority)
    | NotifyOp(notification: Notification, authority: Authority)
    | PublishOp(call: ApiCall)
    | SessionOp(snapshot: DependencySnapshot, call: ApiCall)
    | CompactOp(lineage: nat, authority: Authority, options: CompactOptions)

  ghost function Publish(env: Env, s: Store, c: ApiCall): CommitResult {
    match Normalize(c, env.limits)
    case Failure(o) => CommitResult(s, o, None)
    case Success(r) => Commit(env, s, r)
  }

  ghost function PublishSession(env: Env, s: Store, snapshot: DependencySnapshot, c: ApiCall): CommitResult {
    match Normalize(c, env.limits)
    case Failure(o) => CommitResult(s, o, None)
    case Success(r) => CommitSession(env, s, snapshot, r)
  }

  ghost function Step(env: Env, s: Store, op: Op): Store {
    match op
    case RegisterOp(p, b, e, scope) => Register(env, s, p, b, e, scope).store
    case FenceOp(p, b, a) => Fence(s, p, b, a).store
    case NotifyOp(n, a) => Notify(s, n, a).store
    case PublishOp(c) => Publish(env, s, c).store
    case SessionOp(snapshot, c) => PublishSession(env, s, snapshot, c).store
    case CompactOp(lid, a, options) => Compact(env, s, lid, a, options).store
  }

  ghost function Run(env: Env, s: Store, ops: seq<Op>): Store
    decreases |ops|
  {
    hide Step;
    if ops == [] then s else Run(env, Step(env, s, ops[0]), ops[1..])
  }

  /** The request an operation puts to the commit pipeline. */
  function RequestOf(env: Env, op: Op): Option<Request> {
    match op
    case PublishOp(c) => Normalized(Normalize(c, env.limits))
    case SessionOp(_, c) => Normalized(Normalize(c, env.limits))
    case _ => None
  }

  function Normalized(r: Result<Request>): Option<Request> {
    match r
    case Success(request) => Some(request)
    case Failure(_) => None
  }

  /** A publication, in a session or not, commits its request or changes nothing. */
  ghost predicate CommitsOrStays(env: Env, s: Store, op: Op) {
    Step(env, s, op) == s ||
    match RequestOf(env, op)
    case None => false
    case Some(r) => Step(env, s, op) == Commit(env, s, r).store
  }

  lemma PublicationCommits(env: Env, s: Store, op: Op)
    requires op.PublishOp? || op.SessionOp?
    ensures CommitsOrStays(env, s, op)
  {
    hide Commit, Normalize, CheckSession;
  }
}
