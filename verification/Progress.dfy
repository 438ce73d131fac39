// How a store may change, for every caller and over every run: what a lineage is at any point
// constrains all that follows, graphs stay acyclic, bounds are never exceeded. No theorem here
// assumes anything of the callers, of the digests or of the generations.
module Progress {
  import opened Types
  import opened Ordering
  import opened Digraph
  import opened GraphModel
  import opened StoreTypes
  import opened CurrentnessModel
  import opened Requests
  import opened CommitPipeline
  import opened Operations
  import opened Evolution
  import opened Settlement
  import opened RegistrySteps
  import opened CompactSteps
  import opened Growth

  // ---------------------------------------------------------------------------------------
  // One lineage
  // ---------------------------------------------------------------------------------------

  predicate Closed(l: LineageLifecycle) {
    l == RevokedLineage || l == RetiredLineage
  }

  /** Nothing is added, the position does not move, and in a retired lineage nothing becomes
      CURRENT. */
  ghost predicate Frozen(lin: Lineage, lin': Lineage) {
    && lin'.state.lifecycle == lin.state.lifecycle
    && lin'.state.generation == lin.state.generation && lin'.state.currentNode == lin.state.currentNode
    && lin'.graph.edges == lin.graph.edges && lin'.graph.nodes.Keys == lin.graph.nodes.Keys
    && lin'.attempts == lin.attempts
    && (lin.state.lifecycle == RetiredLineage ==>
          forall id :: id in lin.graph.nodes && id in lin'.graph.nodes ==>
            lin'.graph.nodes[id].currentness == IsCurrent ==> lin.graph.nodes[id].currentness == IsCurrent)
  }

  /** What every operation does to a lineage: generations do not fall, ledger entries and edges
      are permanent, records are never removed, a closed lineage is frozen. */
  ghost predicate Progresses(lin: Lineage, lin': Lineage) {
    && lin'.state.id == lin.state.id && lin'.state.key == lin.state.key
    && lin.state.generation <= lin'.state.generation
    && lin.state.lineageGeneration <= lin'.state.lineageGeneration
    && (forall k :: k in lin.attempts ==> k in lin'.attempts && lin'.attempts[k] == lin.attempts[k])
    && KeepsEdges(lin.graph, lin'.graph) && lin.graph.nodes.Keys <= lin'.graph.nodes.Keys
    && (Closed(lin.state.lifecycle) ==> Frozen(lin, lin'))
  }

  lemma ProgressesSelf(lin: Lineage)
    ensures Progresses(lin, lin)
  {
  }

  lemma ProgressesTrans(a: Lineage, b: Lineage, c: Lineage)
    requires Progresses(a, b) && Progresses(b, c)
    ensures Progresses(a, c)
  {
    if Closed(a.state.lifecycle) {
      assert Frozen(a, b) && Frozen(b, c);
      assert a.graph.nodes.Keys == b.graph.nodes.Keys;
    }
  }

  /** A ledger entry lists at most as many edges as the lineage may hold. The one exception is a
      link, which is listed twice, under an edge bound of one. */
  ghost predicate EntryFits(a: AttemptRecord, limits: Limits) {
    |a.edges| <= limits.maxEdges || (limits.maxEdges == 1 && |a.edges| == 2 && a.edges[0] == a.edges[1])
  }

  ghost predicate LedgerFits(attempts: map<AttemptKey, AttemptRecord>, limits: Limits) {
    forall k :: k in attempts ==> EntryFits(attempts[k], limits)
  }

  /** Some ledger entry is a link's: it lists its edge twice. */
  predicate HasLink(attempts: map<AttemptKey, AttemptRecord>) {
    exists k :: k in attempts && |attempts[k].edges| == 2
  }

  /** Under an edge bound of one, a ledger entry of a link lists more edges than the reader allows. */
  predicate ListsALink(s: Store, limits: Limits) {
    limits.maxEdges == 1 && exists lid :: lid in s.lineages && HasLink(s.lineages[lid].attempts)
  }

  ghost predicate WithinBounds(lin: Lineage, limits: Limits) {
    && Sized(lin.graph, limits)
    && |lin.attempts| <= limits.maxAttempts && LedgerFits(lin.attempts, limits)
    && lin.state.key.name != "" && |lin.state.key.name| <= limits.maxKeyBytes
  }

  /** A lineage progresses, and stays consistent, acyclic and within its bounds. */
  ghost predicate Develops(lin: Lineage, lin': Lineage, limits: Limits) {
    && Progresses(lin, lin')
    && (WellFormed(lin.graph) ==> WellFormed(lin'.graph))
    && (IsDag(lin.graph) ==> IsDag(lin'.graph))
    && (WellFormed(lin.graph) && WithinBounds(lin, limits) ==> WithinBounds(lin', limits))
  }

  lemma DevelopsSelf(lin: Lineage, limits: Limits)
    ensures Develops(lin, lin, limits)
  {
    hide WellFormed, Acyclic, WithinBounds;
    ProgressesSelf(lin);
  }

  lemma DevelopsTrans(a: Lineage, b: Lineage, c: Lineage, limits: Limits)
    requires Develops(a, b, limits) && Develops(b, c, limits)
    ensures Develops(a, c, limits)
  {
    hide WellFormed, Acyclic, WithinBounds, Progresses;
    ProgressesTrans(a, b, c);
  }

  /** The graph grows, the rest of the lineage stays. */
  lemma GraphDevelops(lin: Lineage, g: Graph, limits: Limits)
    requires Grows(lin.graph, g, limits) && !Closed(lin.state.lifecycle)
    ensures Develops(lin, lin.(graph := g), limits)
  {
    hide WellFormed, Acyclic, Sized, Succeeds;
  }

  // ---------------------------------------------------------------------------------------
  // The store
  // ---------------------------------------------------------------------------------------

  ghost predicate StoreProgresses(s: Store, s': Store) {
    forall lid :: lid in s.lineages ==> lid in s'.lineages && Progresses(s.lineages[lid], s'.lineages[lid])
  }

  /** No record's lifecycle rank falls and no record's content changes. */
  ghost predicate RanksRise(s: Store, s': Store) {
    forall lid :: lid in s.lineages && lid in s'.lineages ==>
      Extends(s.lineages[lid].graph, s'.lineages[lid].graph)
  }

  /** No watermark falls: not the store generation, not the epoch, not an upstream one. */
  predicate MarksRise(m: Watermarks, m': Watermarks) {
    && m.store <= m'.store && m.epoch <= m'.epoch && m.path <= m'.path && m.policy <= m'.policy
    && m.evidence <= m'.evidence && m.plan <= m'.plan
  }

  ghost predicate AllWellFormed(s: Store) {
    forall lid :: lid in s.lineages ==> WellFormed(s.lineages[lid].graph)
  }

  ghost predicate AllDags(s: Store) {
    forall lid :: lid in s.lineages ==> IsDag(s.lineages[lid].graph)
  }

  ghost predicate AllWithin(env: Env, s: Store) {
    |s.lineages| <= env.limits.maxLineages &&
    forall lid :: lid in s.lineages ==> WithinBounds(s.lineages[lid], env.limits)
  }

  /** Every lineage develops, and a lineage that is new is consistent and within its bounds. */
  ghost predicate StoreDevelops(env: Env, s: Store, s': Store) {
    && (forall lid :: lid in s.lineages ==>
          lid in s'.lineages && Develops(s.lineages[lid], s'.lineages[lid], env.limits))
    && (forall lid :: lid in s'.lineages && lid !in s.lineages ==>
          IsDag(s'.lineages[lid].graph) && WithinBounds(s'.lineages[lid], env.limits))
    && (|s.lineages| <= env.limits.maxLineages ==> |s'.lineages| <= env.limits.maxLineages)
    && MarksRise(s.marks, s'.marks)
  }

  lemma DevelopingStore(env: Env, s: Store, s': Store)
    requires StoreDevelops(env, s, s')
    ensures StoreProgresses(s, s') && MarksRise(s.marks, s'.marks)
    ensures AllWellFormed(s) ==> AllWellFormed(s')
    ensures AllDags(s) ==> AllDags(s')
    ensures AllWellFormed(s) && AllWithin(env, s) ==> AllWithin(env, s')
  {
    hide WithinBounds, Acyclic, Progresses, WellFormed;
    forall lid | lid in s'.lineages
      ensures lid !in s.lineages ==> WellFormed(s'.lineages[lid].graph)
      ensures lid in s.lineages ==> Develops(s.lineages[lid], s'.lineages[lid], env.limits)
    {
    }
  }

  lemma StoreDevelopsTrans(env: Env, s: Store, t: Store, u: Store)
    requires StoreDevelops(env, s, t) && StoreDevelops(env, t, u)
    ensures StoreDevelops(env, s, u)
  {
    hide WithinBounds, Acyclic, Progresses, WellFormed;
    forall lid | lid in s.lineages
      ensures lid in u.lineages && Develops(s.lineages[lid], u.lineages[lid], env.limits)
    {
      DevelopsTrans(s.lineages[lid], t.lineages[lid], u.lineages[lid], env.limits);
    }
    forall lid | lid in u.lineages && lid !in s.lineages
      ensures IsDag(u.lineages[lid].graph) && WithinBounds(u.lineages[lid], env.limits)
    {
      if lid in t.lineages {
        assert Develops(t.lineages[lid], u.lineages[lid], env.limits);
      }
    }
  }

  lemma StoreDevelopsSelf(env: Env, s: Store)
    ensures StoreDevelops(env, s, s) && RanksRise(s, s)
  {
    hide Develops, Succeeds, WithinBounds;
    forall lid | lid in s.lineages
      ensures Develops(s.lineages[lid], s.lineages[lid], env.limits)
      ensures Extends(s.lineages[lid].graph, s.lineages[lid].graph)
    {
      DevelopsSelf(s.lineages[lid], env.limits);
      ExtendsSelf(s.lineages[lid].graph);
    }
  }

  lemma RanksRiseTrans(env: Env, s: Store, t: Store, u: Store)
    requires StoreDevelops(env, s, t) && RanksRise(s, t) && RanksRise(t, u)
    ensures RanksRise(s, u)
  {
    hide Develops, Extends, WithinBounds;
    forall lid | lid in s.lineages && lid in u.lineages ensures Extends(s.lineages[lid].graph, u.lineages[lid].graph) {
      ExtendsTrans(s.lineages[lid].graph, t.lineages[lid].graph, u.lineages[lid].graph);
    }
  }

  /** One lineage develops, the others stay. */
  lemma OneDevelops(env: Env, s: Store, s': Store, lid: nat, lin': Lineage)
    requires lid in s.lineages && s'.lineages == s.lineages[lid := lin'] && MarksRise(s.marks, s'.marks)
    requires Develops(LineageAt(s, lid), lin', env.limits)
    ensures StoreDevelops(env, s, s')
    ensures Extends(LineageAt(s, lid).graph, lin'.graph) ==> RanksRise(s, s')
  {
    hide Develops, Extends, WithinBounds;
    forall l | l in s.lineages
      ensures l != lid ==> Develops(s.lineages[l], s'.lineages[l], env.limits)
      ensures l != lid ==> Extends(s.lineages[l].graph, s'.lineages[l].graph)
    {
      DevelopsSelf(s.lineages[l], env.limits);
      ExtendsSelf(s.lineages[l].graph);
    }
    assert s'.lineages.Keys == s.lineages.Keys;
    assert |s'.lineages.Keys| == |s.lineages.Keys|;
  }

  // ---------------------------------------------------------------------------------------
  // Registry and notifications
  // ---------------------------------------------------------------------------------------

  /** The lineages as they were, or all of them refreshed. */
  ghost predicate LineagesRefreshed(s: Store, s': Store) {
    s'.lineages == s.lineages ||
    exists t: Store, ids: set<nat> :: t.lineages == s.lineages && s' == RefreshOwned(t, ids)
  }

  lemma RetiredIsHistorical(st: LineageState, n: Node, m: Watermarks, p: Registry)
    requires st.lifecycle == RetiredLineage
    ensures Recomputed(st, n, m, p) == HistoricalOnly
  {
  }

  lemma RefreshedProgresses(s: Store, ids: set<nat>, lid: nat)
    ensures Progresses(LineageAt(s, lid), Refreshed(s, ids, lid))
  {
    hide Recomputed, OwnedIds, LineageAt;
    var lin, lin' := LineageAt(s, lid), Refreshed(s, ids, lid);
    if lin.state.lifecycle == RetiredLineage {
      forall id | id in lin.graph.nodes && lin'.graph.nodes[id].currentness == IsCurrent
        ensures lin.graph.nodes[id].currentness == IsCurrent
      {
        RetiredIsHistorical(lin.state, lin.graph.nodes[id], s.marks, s.publishers);
      }
    }
  }

  lemma RefreshedDevelops(s: Store, ids: set<nat>, lid: nat, limits: Limits)
    ensures Develops(LineageAt(s, lid), Refreshed(s, ids, lid), limits)
    ensures Extends(LineageAt(s, lid).graph, Refreshed(s, ids, lid).graph)
  {
    hide Progresses, SameRecords, Extends, Sized, WellFormed, Acyclic, Refresh, LineageAt;
    RefreshedProgresses(s, ids, lid);
    RefreshedFrame(s, ids, lid);
    SameRecordsGrow(LineageAt(s, lid).graph, Refreshed(s, ids, lid).graph, limits);
    SameRecordsExtends(LineageAt(s, lid).graph, Refreshed(s, ids, lid).graph);
  }

  lemma RefreshDevelops(env: Env, s: Store, s': Store)
    requires LineagesRefreshed(s, s') && MarksRise(s.marks, s'.marks)
    ensures StoreDevelops(env, s, s') && RanksRise(s, s')
  {
    hide Develops, Refreshed, RefreshOwned, Extends, WithinBounds;
    if s'.lineages == s.lineages {
      StoreDevelopsSelf(env, s);
    } else {
      var t: Store, ids: set<nat> :| t.lineages == s.lineages && s' == RefreshOwned(t, ids);
      RefreshOwnedAt(t, ids);
      forall lid | lid in s.lineages
        ensures Develops(s.lineages[lid], s'.lineages[lid], env.limits)
        ensures Extends(s.lineages[lid].graph, s'.lineages[lid].graph)
      {
        RefreshedDevelops(t, ids, lid, env.limits);
      }
      assert |s'.lineages.Keys| == |s.lineages.Keys|;
    }
  }

  lemma RefreshKeepsMarks(s: Store, ids: set<nat>)
    ensures RefreshOwned(s, ids).marks == s.marks
  {
  }

  lemma RegisterRefreshes(env: Env, s: Store, publisher: nat, boot: nat, epoch: nat, scope: Scope)
    ensures LineagesRefreshed(s, Register(env, s, publisher, boot, epoch, scope).store)
    ensures MarksRise(s.marks, Register(env, s, publisher, boot, epoch, scope).store.marks)
  {
    hide RefreshOwned, BootNodes, FenceAll, OtherLiveBoots;
    RegisterMarks(env, s, publisher, boot, epoch, scope);
  }

  lemma RegisterMarks(env: Env, s: Store, publisher: nat, boot: nat, epoch: nat, scope: Scope)
    ensures MarksRise(s.marks, Register(env, s, publisher, boot, epoch, scope).store.marks)
  {
    hide RefreshOwned, BootNodes, FenceAll, OtherLiveBoots;
    var marked := RegisterEpoch(s, epoch);
    if marked.Some? {
      var others := OtherLiveBoots(marked.value.publishers, publisher, boot);
      var s2 := marked.value.(publishers :=
        FenceAll(marked.value.publishers, others)[(publisher, boot) := PublisherRecord(epoch, scope, true, false)]);
      RefreshKeepsMarks(s2, BootNodes(s2.indexes, others));
    }
  }

  lemma FenceRefreshes(s: Store, publisher: nat, boot: nat, a: Authority)
    ensures LineagesRefreshed(s, Fence(s, publisher, boot, a).store)
    ensures MarksRise(s.marks, Fence(s, publisher, boot, a).store.marks)
  {
    hide RefreshOwned, BootNodes, FenceAll, CheckAdministrator;
    forall t: Store, ids: set<nat> ensures RefreshOwned(t, ids).marks == t.marks {
      RefreshKeepsMarks(t, ids);
    }
  }

  lemma NotifyRefreshes(s: Store, n: Notification, a: Authority)
    ensures LineagesRefreshed(s, Notify(s, n, a).store)
    ensures MarksRise(s.marks, Notify(s, n, a).store.marks)
  {
    hide RefreshOwned, Collected, CheckAdministrator, NotificationOutcome, AdvanceMarks;
    NotifyMarks(s, n, a);
  }

  lemma NotifyMarks(s: Store, n: Notification, a: Authority)
    ensures MarksRise(s.marks, Notify(s, n, a).store.marks)
  {
    hide RefreshOwned, Collected, CheckAdministrator, NotificationOutcome, AdvanceMarks, Unlive;
    if NotificationOutcome(s, n) == Updated {
      AdvanceRaises(s, n);
    }
    RefreshKeepsMarks(Announced(s, n), Collected(s.indexes, n));
  }

  lemma AdvanceRaises(s: Store, n: Notification)
    requires NotificationOutcome(s, n) == Updated
    ensures MarksRise(s.marks, AdvanceMarks(s.marks, n))
  {
  }

  // ---------------------------------------------------------------------------------------
  // Committing
  // ---------------------------------------------------------------------------------------

  /** What the pipeline relies on here: a usable lineage name, and one target to correct. */
  predicate Submitted(r: Request, limits: Limits) {
    && r.key.name != "" && |r.key.name| <= limits.maxKeyBytes
    && (r.kind == CorrectionKind ==> |r.edges| == 1)
  }

  ghost predicate AsksSubmitted(env: Env, op: Op) {
    match RequestOf(env, op)
    case None => true
    case Some(r) => Submitted(r, env.limits)
  }

  lemma CallsAreSubmitted(env: Env, op: Op)
    ensures AsksSubmitted(env, op)
  {
    hide ValidateBindings, IsDeclarationKind, DeclaresItsBinding, ReasonMatches, LinkTypeSupported;
  }

  predicate AsMany(edges: Result<seq<Edge>>, specs: seq<EdgeSpec>) {
    match edges
    case Success(es) => |es| == |specs|
    case Failure(_) => true
  }

  lemma {:induction false} BuildEdgesCount(env: Env, s: Store, g: Graph, lid: nat, r: Request, node: Node,
                                           specs: seq<EdgeSpec>)
    ensures AsMany(BuildEdges(env, s, g, lid, r, node, specs), specs)
    decreases |specs|
  {
    hide BuildEdge;
    if specs != [] {
      BuildEdgesCount(env, s, g, lid, r, node, specs[1..]);
    }
  }

  /** What stages 7 to 13 establish for every caller. */
  ghost predicate Passed(lin: Lineage, r: Request, edges: seq<Edge>, limits: Limits) {
    && !Closed(lin.state.lifecycle) && AttemptKeyOf(r.authority) !in lin.attempts
    && (r.kind == RouteStateKind ==> lin.state.generation <= r.generation)
    && |lin.attempts| < limits.maxAttempts && limits.maxEdges >= (if r.kind == LinkKind then 1 else |edges|)
    && (r.kind == CorrectionKind || r.kind == LinkKind ==> |edges| == 1)
  }

  lemma StageBuildAdvances(env: Env, s: Store, lin: Lineage, lid: nat, r: Request)
    requires StageBuild(env, s, lin, lid, r).Proceed? && r.kind == RouteStateKind
    ensures lin.state.generation <= r.generation
  {
    hide NewNode, ExistingGeneration, BlankCore;
  }

  lemma AdmitPasses(env: Env, s: Store, lin: Lineage, lid: nat, r: Request, node: Node, edges: seq<Edge>)
    requires Submitted(r, env.limits) && Admit(env, s, lin, lid, r) == Proceed(node, edges)
    ensures Passed(lin, r, edges, env.limits)
  {
    hide StageBuild, StageFreshness, StageExpected, BuildLink, BuildEdges, Env.RequestDigest;
    if r.kind == RouteStateKind {
      StageBuildAdvances(env, s, lin, lid, r);
    }
    if r.kind == CorrectionKind {
      BuildEdgesCount(env, s, lin.graph, lid, r, node, r.edges);
    }
  }

  lemma GrownKeys<K, V>(m: map<K, V>, m': map<K, V>, k: K)
    requires k in m' && m' == m[k := m'[k]]
    ensures |m'| <= |m| + 1
  {
    assert m'.Keys == m.Keys + {k};
    assert |m'.Keys| == |m'| && |m.Keys| == |m|;
  }

  ghost predicate EntryAtFits(attempts: map<AttemptKey, AttemptRecord>, key: AttemptKey, limits: Limits) {
    key in attempts ==> EntryFits(attempts[key], limits)
  }

  lemma EntryOfCommit(env: Env, lin: Lineage, r: Request, edges: seq<Edge>, ins: Insertion, settled: Lineage)
    requires Passed(lin, r, edges, env.limits) && SettledWell(env, lin, r, ins, settled)
    requires ins.edges == ReportedEdges(r, edges)
    requires r.kind != LinkKind && edges != [] ==> ins.graph.edges != map[]
    ensures EntryAtFits(settled.attempts, AttemptKeyOf(r.authority), env.limits)
  {
    hide Grows, Env.RequestDigest;
    EdgeIdsCount(ins.edges);
  }

  lemma SettledDevelops(env: Env, lin: Lineage, r: Request, edges: seq<Edge>, ins: Insertion, settled: Lineage)
    requires Passed(lin, r, edges, env.limits) && SettledWell(env, lin, r, ins, settled)
    requires Grows(lin.graph, ins.graph, env.limits)
    requires EntryAtFits(settled.attempts, AttemptKeyOf(r.authority), env.limits)
    ensures Develops(lin, settled, env.limits) && Extends(lin.graph, settled.graph)
  {
    hide WellFormed, Acyclic, Sized, Succeeds, Env.RequestDigest, EntryFits, Grows, AttemptKeyOf;
    GrowsTrans(lin.graph, ins.graph, settled.graph, env.limits);
    GrowsParts(lin.graph, settled.graph, env.limits);
    GrownKeys(lin.attempts, settled.attempts, AttemptKeyOf(r.authority));
  }

  lemma GrowsParts(g: Graph, h: Graph, limits: Limits)
    requires Grows(g, h, limits)
    ensures Extends(g, h) && KeepsEdges(g, h) && g.nodes.Keys <= h.nodes.Keys
    ensures WellFormed(g) ==> WellFormed(h)
    ensures IsDag(g) ==> IsDag(h)
    ensures WellFormed(g) && Sized(g, limits) ==> Sized(h, limits)
  {
    hide WellFormed, Acyclic, Sized, Succeeds;
  }

  ghost predicate DevelopsUp(lin: Lineage, lin': Lineage, limits: Limits) {
    Develops(lin, lin', limits) && Extends(lin.graph, lin'.graph)
  }

  /** The accepted change, from the insertion that nothing refused. */
  lemma AcceptedDevelops(env: Env, s: Store, lin: Lineage, r: Request, node: Node, edges: seq<Edge>)
    requires Passed(lin, r, edges, env.limits)
    ensures
      var ins := InsertBatch(lin.graph, r, node, edges, env.limits);
      ins.refused == Ok ==> DevelopsUp(lin, Settle(env, s, lin, r, node, ins), env.limits)
  {
    hide Grows, InsertBatch, Settle, Develops, Extends, SettledWell, EntryFits;
    var ins := InsertBatch(lin.graph, r, node, edges, env.limits);
    InsertBatchGrows(lin.graph, r, node, edges, env.limits);
    if ins.refused == Ok {
      var settled := Settle(env, s, lin, r, node, ins);
      SettleIsWell(env, s, lin, r, node, ins);
      EntryOfCommit(env, lin, r, edges, ins, settled);
      SettledDevelops(env, lin, r, edges, ins, settled);
    }
  }

  /** What was inserted when stage 14 stopped half-way. */
  lemma PartialDevelops(env: Env, lin: Lineage, r: Request, node: Node, edges: seq<Edge>)
    requires Passed(lin, r, edges, env.limits)
    ensures DevelopsUp(lin, lin.(graph := InsertBatch(lin.graph, r, node, edges, env.limits).graph), env.limits)
  {
    hide Grows, InsertBatch, Develops, Extends;
    InsertBatchGrows(lin.graph, r, node, edges, env.limits);
    var ins := InsertBatch(lin.graph, r, node, edges, env.limits);
    GraphDevelops(lin, ins.graph, env.limits);
    GrowsParts(lin.graph, ins.graph, env.limits);
  }

  lemma ApplyDevelops(env: Env, s: Store, lid: nat, r: Request, node: Node, edges: seq<Edge>)
    requires lid in s.lineages && Passed(LineageAt(s, lid), r, edges, env.limits)
    ensures StoreDevelops(env, s, Apply(env, s, lid, r, node, edges).store)
    ensures RanksRise(s, Apply(env, s, lid, r, node, edges).store)
  {
    hide InsertBatch, Settle, IndexNode, Passed, Develops, Extends, StoreDevelops, RanksRise, PublicationOf, LineageAt,
      AttemptKeyOf, Next;
    var lin := LineageAt(s, lid);
    var ins := InsertBatch(lin.graph, r, node, edges, env.limits);
    PartialDevelops(env, lin, r, node, edges);
    AcceptedDevelops(env, Marked(s), lin, r, node, edges);
    var applied := Apply(env, s, lid, r, node, edges);
    if applied.publication.None? {
      OneDevelops(env, s, applied.store, lid, lin.(graph := ins.graph));
    } else {
      OneDevelops(env, s, applied.store, lid, Settle(env, Marked(s), lin, r, node, ins));
    }
  }

  lemma NewLineageWithin(lid: nat, key: LineageKey, limits: Limits)
    requires key.name != "" && |key.name| <= limits.maxKeyBytes
    ensures WithinBounds(NewLineage(lid, key), limits) && IsDag(NewLineage(lid, key).graph)
  {
  }

  lemma AcquireDevelops(env: Env, s: Store, lid: nat, r: Request, s1: Store)
    requires Submitted(r, env.limits) && Acquire(env, s, lid, r.key) == Some(s1)
    ensures StoreDevelops(env, s, s1) && RanksRise(s, s1) && lid in s1.lineages
  {
    hide Develops, Extends, WithinBounds, IsDag, NewLineage, Succeeds;
    NewLineageWithin(lid, r.key, env.limits);
    StoreDevelopsSelf(env, s);
  }

  lemma PursuedDevelops(env: Env, s: Store, lid: nat, r: Request)
    requires lid in s.lineages && Submitted(r, env.limits)
    ensures StoreDevelops(env, s, Pursued(env, s, lid, r).store) && RanksRise(s, Pursued(env, s, lid, r).store)
  {
    hide Admit, Apply, StoreDevelops, RanksRise, Submitted, Passed;
    StoreDevelopsSelf(env, s);
    match Admit(env, s, LineageAt(s, lid), lid, r)
    case Proceed(node, edges) =>
      AdmitPasses(env, s, LineageAt(s, lid), lid, r, node, edges);
      ApplyDevelops(env, s, lid, r, node, edges);
    case _ =>
  }

  lemma CommitDevelops(env: Env, s: Store, r: Request)
    requires Submitted(r, env.limits)
    ensures StoreDevelops(env, s, Commit(env, s, r).store) && RanksRise(s, Commit(env, s, r).store)
  {
    hide Authorize, Acquire, Pursued, StoreDevelops, RanksRise, Submitted, LineageIdOf;
    StoreDevelopsSelf(env, s);
    var lid := LineageIdOf(env, r);
    match Acquire(env, s, lid, r.key)
    case None =>
    case Some(s1) =>
      AcquireDevelops(env, s, lid, r, s1);
      PursuedDevelops(env, s1, lid, r);
      StoreDevelopsTrans(env, s, s1, Pursued(env, s1, lid, r).store);
      RanksRiseTrans(env, s, s1, Pursued(env, s1, lid, r).store);
  }

  // ---------------------------------------------------------------------------------------
  // Compacting
  // ---------------------------------------------------------------------------------------

  lemma CompactedProgresses(env: Env, lin: Lineage, lin': Lineage, a: Authority, ids: set<nat>)
    requires CompactedLineage(env, lin, lin', a, ids)
    ensures Progresses(lin, lin')
  {
    hide TombstonesValid;
    forall id | id in lin.graph.nodes && lin'.graph.nodes[id].currentness == IsCurrent
      ensures lin.graph.nodes[id].currentness == IsCurrent
    {
      CompactedRecord(env, lin, lin', a, ids, id);
    }
  }

  lemma ReplacedStaysGood(env: Env, a: Authority, g: Graph, h: Graph, ids: set<nat>, limits: Limits)
    requires ReplacedExactly(env, a, g, h, ids) && WellFormed(g)
    ensures WellFormed(h) && (IsDag(g) ==> IsDag(h)) && (Sized(g, limits) ==> Sized(h, limits))
  {
    hide Acyclic, EdgeArcs, Sized;
    ArcsOfSameEdges(g, h);
    SameSizes(g, h, limits);
  }

  lemma SameSizes(g: Graph, h: Graph, limits: Limits)
    requires h.edges == g.edges && h.nodes.Keys == g.nodes.Keys
    ensures Sized(g, limits) ==> Sized(h, limits)
  {
    forall n, d ensures EdgesAt(h, d, n) == EdgesAt(g, d, n) {
    }
    assert |h.nodes.Keys| == |h.nodes| && |g.nodes.Keys| == |g.nodes|;
  }

  lemma CompactedDevelops(env: Env, lin: Lineage, lin': Lineage, a: Authority, ids: set<nat>)
    requires CompactedLineage(env, lin, lin', a, ids) && WellFormed(lin.graph)
    ensures Develops(lin, lin', env.limits)
  {
    hide TombstonesValid, ReplacedExactly, Progresses, Sized, WellFormed, Acyclic, IsHistoryRecord;
    CompactedProgresses(env, lin, lin', a, ids);
    ReplacedStaysGood(env, a, lin.graph, lin'.graph, ids, env.limits);
  }

  lemma CompactMarks(env: Env, s: Store, lid: nat, a: Authority, options: CompactOptions)
    ensures MarksRise(s.marks, Compact(env, s, lid, a, options).store.marks)
    ensures lid !in s.lineages ==> Compact(env, s, lid, a, options).store == s
  {
    hide CompactLineage, HistoryRecords, LivenessOf;
  }

  lemma CompactDevelops(env: Env, s: Store, lid: nat, a: Authority, options: CompactOptions)
    requires AllWellFormed(s)
    ensures StoreDevelops(env, s, Compact(env, s, lid, a, options).store)
  {
    hide Compact, CompactedLineage, Doomed, Develops, StoreDevelops, WellFormed, MarksRise;
    var s' := Compact(env, s, lid, a, options).store;
    CompactMarks(env, s, lid, a, options);
    StoreDevelopsSelf(env, s);
    if lid in s.lineages {
      CompactIsCompaction(env, s, lid, a, options);
      if s' != s {
        CompactedDevelops(env, LineageAt(s, lid), LineageAt(s', lid), a, Doomed(env, LineageAt(s, lid), a, options));
        OneDevelops(env, s, s', lid, LineageAt(s', lid));
      }
    }
  }

  // ---------------------------------------------------------------------------------------
  // Steps and runs
  // ---------------------------------------------------------------------------------------

  lemma StepDevelops(env: Env, s: Store, op: Op)
    requires AllWellFormed(s)
    ensures StoreDevelops(env, s, Step(env, s, op))
    ensures !op.CompactOp? ==> RanksRise(s, Step(env, s, op))
  {
    hide Register, Fence, Notify, Publish, PublishSession, Commit, Compact, StoreDevelops, RanksRise, LineagesRefreshed,
      AllWellFormed, Submitted, RequestOf;
    match op {
      case RegisterOp(p, b, e, scope) =>
        RegisterRefreshes(env, s, p, b, e, scope);
        RefreshDevelops(env, s, Step(env, s, op));
      case FenceOp(p, b, a) =>
        FenceRefreshes(s, p, b, a);
        RefreshDevelops(env, s, Step(env, s, op));
      case NotifyOp(n, a) =>
        NotifyRefreshes(s, n, a);
        RefreshDevelops(env, s, Step(env, s, op));
      case CompactOp(lid, a, options) => CompactDevelops(env, s, lid, a, options);
      case _ =>
        PublicationCommits(env, s, op);
        CallsAreSubmitted(env, op);
        StoreDevelopsSelf(env, s);
        if RequestOf(env, op).Some? {
          CommitDevelops(env, s, RequestOf(env, op).value);
        }
    }
  }

  /** Absorbing lifecycles, one step: every operation of every caller progresses every lineage and
      lets no watermark fall, and every operation but compaction lets no lifecycle rank fall. */
  lemma StepProgresses(env: Env, s: Store, op: Op)
    requires AllWellFormed(s)
    ensures StoreProgresses(s, Step(env, s, op)) && MarksRise(s.marks, Step(env, s, op).marks)
    ensures !op.CompactOp? ==> RanksRise(s, Step(env, s, op))
    ensures AllWellFormed(Step(env, s, op))
  {
    hide Step, StoreDevelops, StoreProgresses, RanksRise, AllWellFormed, MarksRise;
    StepDevelops(env, s, op);
    DevelopingStore(env, s, Step(env, s, op));
  }

  predicate NoCompaction(ops: seq<Op>) {
    forall op :: op in ops ==> !op.CompactOp?
  }

  lemma {:induction false} RunDevelops(env: Env, s: Store, ops: seq<Op>)
    requires AllWellFormed(s)
    ensures StoreDevelops(env, s, Run(env, s, ops)) && AllWellFormed(Run(env, s, ops))
    ensures NoCompaction(ops) ==> RanksRise(s, Run(env, s, ops))
    decreases |ops|
  {
    hide Step, StoreDevelops, RanksRise, AllWellFormed;
    if ops == [] {
      StoreDevelopsSelf(env, s);
    } else {
      var t := Step(env, s, ops[0]);
      StepDevelops(env, s, ops[0]);
      DevelopingStore(env, s, t);
      RunDevelops(env, t, ops[1..]);
      StoreDevelopsTrans(env, s, t, Run(env, s, ops));
      if NoCompaction(ops) {
        RanksRiseTrans(env, s, t, Run(env, s, ops));
      }
    }
  }

  /** Absorbing lifecycles, over any run of any callers: what a lineage is at any point constrains
      all that follows. In particular a revoked or retired lineage never gains a record or an edge,
      never moves its current record, and in a retired one nothing ever turns CURRENT. */
  lemma RunProgresses(env: Env, s: Store, ops: seq<Op>)
    requires AllWellFormed(s)
    ensures StoreProgresses(s, Run(env, s, ops)) && MarksRise(s.marks, Run(env, s, ops).marks)
    ensures NoCompaction(ops) ==> RanksRise(s, Run(env, s, ops))
  {
    hide Run, StoreDevelops, StoreProgresses, RanksRise, AllWellFormed, MarksRise;
    RunDevelops(env, s, ops);
    DevelopingStore(env, s, Run(env, s, ops));
  }

  lemma ReachedWellFormed(env: Env, ops: seq<Op>)
    ensures AllWellFormed(Run(env, EMPTY_STORE, ops))
  {
    hide Run, StoreDevelops, RanksRise;
    RunDevelops(env, EMPTY_STORE, ops);
  }

  /** The same from any point of any run that starts with the empty store, with no hypothesis. */
  lemma ReachedProgresses(env: Env, ops: seq<Op>, more: seq<Op>)
    ensures
      var s := Run(env, EMPTY_STORE, ops);
      var t := Run(env, s, more);
      && StoreProgresses(s, t) && MarksRise(s.marks, t.marks)
      && (NoCompaction(more) ==> RanksRise(s, t))
  {
    hide Run, StoreProgresses, RanksRise, AllWellFormed, MarksRise;
    ReachedWellFormed(env, ops);
    RunProgresses(env, Run(env, EMPTY_STORE, ops), more);
  }

  /** Bounds and acyclicity are enforced on every caller: from a store within its bounds every run
      stays within them, and from acyclic graphs every run leaves acyclic graphs. */
  lemma RunWithin(env: Env, s: Store, ops: seq<Op>)
    requires AllWellFormed(s)
    ensures AllWithin(env, s) ==> AllWithin(env, Run(env, s, ops))
    ensures AllDags(s) ==> AllDags(Run(env, s, ops))
  {
    hide Run, StoreDevelops, RanksRise, AllWellFormed, AllDags, AllWithin;
    RunDevelops(env, s, ops);
    DevelopingStore(env, s, Run(env, s, ops));
  }

  /** No reached lineage exceeds a configured bound or holds a cycle, whatever its callers did. */
  lemma ReachedWithin(env: Env, ops: seq<Op>)
    ensures AllWithin(env, Run(env, EMPTY_STORE, ops)) && AllDags(Run(env, EMPTY_STORE, ops))
  {
    hide Run;
    RunWithin(env, EMPTY_STORE, ops);
  }
}
