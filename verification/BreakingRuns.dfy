// Runs to the stores in which a property that the run assumptions protect fails: two live route
// states, stored currentness that is not what recomputation gives; and to the stores in which a
// compaction is blocked, an ancestor is replaced and an image is refused although every assumption
// is met.
module BreakingRuns {
  import opened Types
  import opened Ordering
  import opened Digraph
  import opened GraphModel
  import opened StoreTypes
  import opened CurrentnessModel
  import opened Requests
  import opened CommitPipeline
  import opened Operations
  import opened Soundness
  import opened Admission
  import opened Evolution
  import opened Settlement
  import opened Transition
  import opened LineageSteps
  import opened CommitSteps
  import opened CommitCache
  import opened CommitInvariants
  import opened RegistrySteps
  import opened CompactSteps
  import opened Progress
  import opened Runs
  import opened Origins
  import opened BootIndexes
  import opened Announcements
  import opened Acceptance
  import opened Scenes
  import opened Submissions
  import opened Aftermath
  import opened SampleRuns
  import opened Images
  import opened Recovery
  import B = Bytes
  import opened ImageCodec
  import opened Persistence

  lemma UnboundStaged(env: Env, key: LineageKey, w: Caller)
    requires env.CollisionFree() && IsCaller(w) && CheckLineageKey(key, env.limits) == Ok
    ensures Staged(Scene(env, key, w, NO_BINDINGS))
  {
    hide CheckLineageKey, Env.CollisionFree;
  }

  // ---------------------------------------------------------------------------------------
  // A second correction of the same route state
  // ---------------------------------------------------------------------------------------

  /** Every operation accepted and every rule respected but this one, which the last one breaks. */
  ghost predicate LastBreaks(env: Env, ops: seq<Op>, s: Store, last: Op, rule: Rule) {
    && Leads(env, ops, s) && IsAccepted(OutcomeOf(env, s, last))
    && RespectsAll(env, s, last, EVERY_RULE - {rule}) && !Respects(env, s, last, rule)
  }

  lemma SecondCorrection(x: Scene, ops: seq<Op>, s: Store, n: Node) returns (last: Op, id: nat)
    requires Poised(x, ops, s) && HoldsRecord(Line(x, s).graph, n) && n.IsRouteState()
    requires n.core.generation == Line(x, s).state.generation && n.id != Line(x, s).state.currentNode
    ensures LastBreaks(x.env, ops, s, last, CorrectsFirst)
    ensures SecondLive(LineageAt(Step(x.env, s, last), Lid(x)), id)
  {
    hide Leads, Staged, Spacious, Serves, Young, Prompts, Took, Step, OutcomeOf, Respects, Settled, Ready, IndexNode,
      Acquired, SecondLive, StageFreshness, IsAccepted;
    var node, e := CorrectionPrompts(x, ops, s, n);
    var c, r := CorrectionCall(x, ops, n.id), CorrectionRequest(x, ops, n.id);
    last, id := PublishOp(c), node.id;
    Published(x, ops, s, c, r, node, [e]);
    var s1 := TookSettled(x, s, Step(x.env, s, last), r, node, [e]);
    SecondCorrectionBreaks(x.env, s1, Line(x, s), Lid(x), r, node, [e], Marked(s1));
  }

  /** Two live route states. A publisher registers, publishes a root, corrects it, and corrects the
      same record again: every operation is accepted, and afterwards a route state at the current
      generation is Current beside the current record. Only the last operation breaks an assumption. */
  lemma TwoLiveRun(env: Env, key: LineageKey, generation: nat, w: Caller)
    returns (ops: seq<Op>, s: Store, last: Op, id: nat)
    requires env.CollisionFree() && Generous(env.limits) && IsCaller(w) && generation != 0
    requires CheckLineageKey(key, env.limits) == Ok
    ensures LastBreaks(env, ops, s, last, CorrectsFirst) &&
            SecondLive(LineageAt(Step(env, s, last), env.lineageIdOf(key)), id)
  {
    hide CheckLineageKey, Env.CollisionFree, IsCaller, Generous, Staged, On, Poised, Step, LastBreaks, Dated,
      KeepsSpent, Line, SecondLive, AfterRegistration;
    var x := Scene(env, key, w, NO_BINDINGS);
    UnboundStaged(env, key, w);
    GenerousHasRoom(env.limits);
    var c1, s1, n1 := RootStep(x, generation);
    var ops1 := Opening(w) + [PublishOp(c1)];
    GenerousIsPoised(x, ops1, s1);
    var c2, s2, n2 := CorrectionStep(x, ops1, s1, n1, generation);
    ops, s := ops1 + [PublishOp(c2)], s2;
    GenerousIsPoised(x, ops, s);
    var n := CorrectedRecord(x, ops1, s1, s2, n1, n2, generation);
    last, id := SecondCorrection(x, ops, s2, n);
  }

  lemma CorrectedRecord(x: Scene, ops: seq<Op>, s: Store, t: Store, n: Node, n': Node, generation: nat)
    returns (m: Node)
    requires StandsAt(x, s, n, generation) && StandsAt(x, t, n', generation) && n'.id != n.id && Spent(x, t, n.id)
    requires NewOrSucceeds(Line(x, s).graph, Line(x, t).graph, CorrectionRequest(x, ops, n.id), n', n.id)
    ensures HoldsRecord(Line(x, t).graph, m) && m.IsRouteState() && m.core.generation == Line(x, t).state.generation
    ensures m.id != Line(x, t).state.currentNode
  {
    hide Line;
    m := Line(x, t).graph.nodes[n.id];
  }

  // ---------------------------------------------------------------------------------------
  // An announcement that leaves stored currentness stale
  // ---------------------------------------------------------------------------------------

  lemma AtItsGeneration(st: LineageState, n: Node, m: Watermarks, l: Liveness)
    requires n.core.generation == st.generation
    ensures Compute(st, n, m, l) != StaleRoute
  {
    hide EvidenceGet;
  }

  /** The current record is live, exact, and bound ahead of what is about to be announced. */
  lemma RootIsStranded(x: Scene, ops: seq<Op>, s: Store, n: Node, generation: nat, bound: nat, v: nat)
    requires Staged(x) && On(x, ops, s) && StandsAt(x, s, n, generation) && s.marks.path == 0 && v < bound
    requires n.core.bindings == PathBound(bound)
    ensures Strands(s, PathAuthorityAdvance(v), Lid(x), n)
    ensures !FirstAnnouncementCovers(s, PathAuthorityAdvance(v))
  {
    hide Staged, Leads, Serves, StageFreshness, Sound, Placed, AllTracked, Compute, Originated, SizeWithin,
      IndexedWithin, BoundAt, LivenessOf, LineageSound, Standing;
    StagedFree(x);
    LeadsKeeps(x.env, ops, s);
    CacheAgreesAt(s, Lid(x));
    assert AgreesAt(Line(x, s).state, Line(x, s).graph, s.marks, s.publishers, n.id);
    AtItsGeneration(Line(x, s).state, n, s.marks, LivenessOf(s.publishers, PublisherOf(n)));
    assert !CoversBindings(s.marks, PathAuthorityAdvance(v), s.lineages[Lid(x)].graph.nodes[n.id].core.bindings);
  }

  lemma StagedFree(x: Scene)
    requires Staged(x)
    ensures x.env.CollisionFree()
  {
    hide Env.CollisionFree, CheckLineageKey, ValidateBindingFields;
  }

  lemma AnnouncementBreaks(env: Env, s: Store, n: Notification, a: Authority)
    requires !FirstAnnouncementCovers(s, n) && Next(s.marks.store).Some?
    ensures RespectsAll(env, s, NotifyOp(n, a), EVERY_RULE - {CacheSafe})
    ensures !Respects(env, s, NotifyOp(n, a), CacheSafe)
  {
    hide FirstAnnouncementCovers, RespectsRequest, TypedCall, AllowedCompact, NoneHeldFenced, Register;
  }

  /** A record whose stored currentness is not what recomputation gives. */
  ghost predicate Disagrees(s: Store, lid: nat, id: nat) {
    && lid in s.lineages && id in LineageAt(s, lid).graph.nodes
    && !Agrees(LineageAt(s, lid).state, LineageAt(s, lid).graph.nodes[id], s.marks, s.publishers)
  }

  lemma StrandedByAnnouncement(x: Scene, ops: seq<Op>, s: Store, n: Node, generation: nat, v: nat)
    requires Staged(x) && On(x, ops, s) && |ops| < 8 && StandsAt(x, s, n, generation) && s.marks.path == 0 && v != 0
    requires Strands(s, PathAuthorityAdvance(v), Lid(x), n)
    ensures
      var last := NotifyOp(PathAuthorityAdvance(v), Signed(x.caller, []));
      Disagrees(Step(x.env, s, last), Lid(x), n.id) && OutcomeOf(x.env, s, last) == Updated
  {
    hide Staged, Leads, StageFreshness, Invariant, Originated, Young, LivenessOf, Notify, RefreshOwned, Below,
      Recomputed, IsCaller, Step, OutcomeOf;
    NotifyIs(x.env, s, PathAuthorityAdvance(v), Signed(x.caller, []));
    StagedFree(x);
    LeadsKeeps(x.env, ops, s);
    AnnouncementAccepted(s, x.caller, v);
    AnnouncedRecord(x.env, s, PathAuthorityAdvance(v), Lid(x), n.id);
  }

  /** Stale currentness, by an announcement. A publisher registers, publishes a root bound to a path
      generation, and announces an older one as the first: every operation is accepted, and
      afterwards the stored currentness of the root is not what recomputation gives. Only the last
      operation breaks an assumption, and none about the structure. */
  lemma StrandedRun(env: Env, key: LineageKey, generation: nat, bound: nat, v: nat, w: Caller)
    returns (ops: seq<Op>, s: Store, last: Op, id: nat)
    requires env.CollisionFree() && Generous(env.limits) && generation != 0 && IsCaller(w) && 0 < v < bound
    requires CheckLineageKey(key, env.limits) == Ok
    ensures LastBreaks(env, ops, s, last, CacheSafe) && Disagrees(Step(env, s, last), env.lineageIdOf(key), id)
  {
    hide CheckLineageKey, Env.CollisionFree, IsCaller, Generous, Staged, Step, OutcomeOf, Dated, Line, Leads, Young,
      Serves, StageFreshness, Strands, FirstAnnouncementCovers, RespectsAll, Respects, StandsAt, Disagrees;
    var x := Scene(env, key, w, PathBound(bound));
    PathBoundStaged(env, key, w, bound);
    GenerousHasRoom(env.limits);
    var c, n;
    c, s, n := RootStep(x, generation);
    ops := Opening(w) + [PublishOp(c)];
    last, id := NotifyOp(PathAuthorityAdvance(v), Signed(w, [])), n.id;
    RootIsStranded(x, ops, s, n, generation, bound, v);
    AnnouncementBreaks(env, s, PathAuthorityAdvance(v), Signed(w, []));
    StrandedByAnnouncement(x, ops, s, n, generation, v);
  }

  // ---------------------------------------------------------------------------------------
  // A record that blocks compaction
  // ---------------------------------------------------------------------------------------

  const POLICY_BOUND: Bindings := NO_BINDINGS.(policy := Some(1))
  const WITHOUT_BOUNDS: CompactOptions := CompactOptions(0, 0)

  lemma PolicyStaged(env: Env, key: LineageKey, w: Caller)
    requires env.CollisionFree() && IsCaller(w) && CheckLineageKey(key, env.limits) == Ok
    ensures Staged(Scene(env, key, w, POLICY_BOUND))
  {
    hide CheckLineageKey, Env.CollisionFree;
  }

  /** A policy decision is declared: a record without a generation, in a lineage with no route state. */
  lemma DeclarationStep(x: Scene, ops: seq<Op>, s: Store) returns (c: ApiCall, t: Store, n: Node)
    requires Poised(x, ops, s) && x.bindings.policy.Some?
    ensures c == PolicyCall(x, ops) && t == Step(x.env, s, PublishOp(c)) && On(x, ops + [PublishOp(c)], t)
    ensures HoldsRecord(Line(x, t).graph, n) && n.lifecycle == Declared && n.core.generation == 0
    ensures n.id !in Line(x, s).graph.nodes && n.core.kind == PolicyDecision
    ensures Line(x, t).graph.nodes.Keys == Line(x, s).graph.nodes.Keys + {n.id} && Lid(x) in t.lineages
    ensures Line(x, t).state.currentNode == Line(x, s).state.currentNode
    ensures Line(x, s).graph.edges == map[] ==> Line(x, t).graph.edges == map[]
  {
    hide On, Staged, Took, Prompts, Spacious, Step, Settled, Ready, Acquired, IndexNode, ValidateNode;
    var node := PolicyPrompts(x, ops, s);
    var r := PolicyRequest(x, ops);
    c, t := PolicyCall(x, ops), Step(x.env, s, PublishOp(PolicyCall(x, ops)));
    GoesOn(x, ops, s, c, r, node, []);
    var s1 := TookSettled(x, s, t, r, node, []);
    TookMoves(x, s, t, r, node, []);
    TookContent(x, s, t, r, node, []);
    NewRecordStands(x.env, s1, Line(x, s), Lid(x), r, node, [], Marked(s1));
    if Line(x, s).graph.edges == map[] {
      StaysEdgeless(x.env, s1, Line(x, s), Lid(x), r, node, Marked(s1));
    }
    n := Line(x, t).graph.nodes[node.id];
  }

  lemma InvalidationStep(x: Scene, ops: seq<Op>, s: Store, n: Node) returns (c: ApiCall, t: Store, n': Node)
    requires Poised(x, ops, s) && HoldsRecord(Line(x, s).graph, n) && n.lifecycle == Declared
    ensures c == InvalidationCall(x, ops, n.id) && t == Step(x.env, s, PublishOp(c)) && On(x, ops + [PublishOp(c)], t)
    ensures HoldsRecord(Line(x, t).graph, n') && n'.id == n.id && n'.lifecycle == Invalid && n'.core == n.core
    ensures Line(x, t).state.currentNode == Line(x, s).state.currentNode && Lid(x) in t.lineages
  {
    hide On, Staged, Took, Prompts, Spacious, Step, Settled, Ready, Acquired, IndexNode;
    var node, e := InvalidationPrompts(x, ops, s, n);
    var r := InvalidationRequest(x, ops, n.id);
    c, t := InvalidationCall(x, ops, n.id), Step(x.env, s, PublishOp(InvalidationCall(x, ops, n.id)));
    GoesOn(x, ops, s, c, r, node, [e]);
    var s1 := TookSettled(x, s, t, r, node, [e]);
    TookMoves(x, s, t, r, node, [e]);
    TargetInvalidated(x.env, Marked(s1), Line(x, s), r, node, [e]);
    TookRecord(x, s, t, r, node, [e], n.id);
    n' := Line(x, t).graph.nodes[n.id];
  }

  /** A compaction that a candidate without a generation stops. */
  ghost predicate Blocked(env: Env, s: Store, lid: nat, id: nat, last: Op) {
    match last
    case CompactOp(l, _, options) =>
      && l == lid && (0, id) in Candidates(env, LineageAt(s, lid), options)
      && OutcomeOf(env, s, last) == InvalidDerivation && Step(env, s, last) == s
    case _ => false
  }

  lemma NoAncestry(x: Scene, ops: seq<Op>, s: Store, options: CompactOptions)
    requires Staged(x) && On(x, ops, s) && Line(x, s).state.currentNode == 0
    ensures RetainedAncestry(x.env, Line(x, s), options) == {}
  {
    hide On, Staged, LineageSound, Standing, CountsExact, Line, AncestryOf;
    LineSound(x, ops, s);
  }

  lemma UndatedBlocks(x: Scene, ops: seq<Op>, s: Store, n: Node) returns (last: Op)
    requires Staged(x) && On(x, ops, s) && Lid(x) in s.lineages && Line(x, s).state.currentNode == 0
    requires HoldsRecord(Line(x, s).graph, n) && n.lifecycle == Invalid && n.core.generation == 0 && n.id != 0
    requires n.core.kind == PolicyDecision && x.env.limits.maxBatch > 0
    ensures Blocked(x.env, s, Lid(x), n.id, last)
  {
    hide Leads, LineageSound, Standing, CountsExact, WellFormed, StageFreshness, CompactAll, Candidates, SortedPairs,
      Env.CollisionFree, CheckLineageKey, ValidateBindingFields, HistoryRecords, Compact, Young, Serves,
      RetainedAncestry, Step, OutcomeOf;
    var a := Signed(x.caller, []);
    CompactIs(x.env, s, Lid(x), a, WITHOUT_BOUNDS);
    last := CompactOp(Lid(x), a, WITHOUT_BOUNDS);
    LineSound(x, ops, s);
    NoAncestry(x, ops, s, WITHOUT_BOUNDS);
    UnprotectedIsCandidate(x, ops, s, WITHOUT_BOUNDS, n);
    assert (0, n.id) in SortedPairs(Candidates(x.env, Line(x, s), WITHOUT_BOUNDS));
    OldestFirst(x.env, Line(x, s), WITHOUT_BOUNDS, (0, n.id));
    CompactionBlockedExactly(x.env, Lid(x), Line(x, s), a, WITHOUT_BOUNDS);
    CallerMayCompact(x, ops, s, WITHOUT_BOUNDS);
    RefusedIsSame(s, Lid(x), CompactLineage(x.env, Line(x, s), a, WITHOUT_BOUNDS));
  }

  lemma RefusedIsSame(s: Store, lid: nat, done: Compaction)
    requires lid in s.lineages && done.refused != Ok && done.graph == LineageAt(s, lid).graph
    ensures AfterCompaction(s, lid, done) == OpResult(s, done.refused)
  {
    hide HistoryRecords;
    assert s.lineages[lid := s.lineages[lid]] == s.lineages;
  }

  /** A blocked compaction. A publisher registers, declares a policy decision without a generation,
      and invalidates it: it is unprotected history, yet compaction is refused on its account and
      changes nothing. No assumption is broken. */
  lemma BlockedCompactionRun(env: Env, key: LineageKey, w: Caller)
    returns (ops: seq<Op>, s: Store, last: Op, id: nat)
    requires env.CollisionFree() && Generous(env.limits) && IsCaller(w) && CheckLineageKey(key, env.limits) == Ok
    ensures Leads(env, ops, s) && Blocked(env, s, env.lineageIdOf(key), id, last)
  {
    hide CheckLineageKey, Env.CollisionFree, IsCaller, Generous, Staged, Step, Line, Leads, Young, Serves,
      StageFreshness, Poised, Blocked;
    var x := Scene(env, key, w, POLICY_BOUND);
    PolicyStaged(env, key, w);
    GenerousHasRoom(env.limits);
    Opened(x);
    var c1, s1, n1 := DeclarationStep(x, Opening(w), AfterRegistration(w));
    var ops1 := Opening(w) + [PublishOp(c1)];
    GenerousIsPoised(x, ops1, s1);
    var c2, s2, n2 := InvalidationStep(x, ops1, s1, n1);
    ops, s, id := ops1 + [PublishOp(c2)], s2, n2.id;
    RecordIdNonZero(x, ops, s, n2);
    last := UndatedBlocks(x, ops, s, n2);
  }

  lemma RecordIdNonZero(x: Scene, ops: seq<Op>, s: Store, n: Node)
    requires Staged(x) && On(x, ops, s) && HoldsRecord(Line(x, s).graph, n)
    ensures n.id != 0
  {
    hide On, Staged, LineageSound, Standing, CountsExact, Line;
    LineSound(x, ops, s);
  }

  // ---------------------------------------------------------------------------------------
  // A boot that comes back
  // ---------------------------------------------------------------------------------------

  /** A run has led to a store whose one record is signed by the caller and CURRENT. */
  ghost predicate Alone(x: Scene, ops: seq<Op>, s: Store, n: Node) {
    && Leads(x.env, ops, s) && s.lineages.Keys == {Lid(x)} && Line(x, s).graph.nodes.Keys == {n.id}
    && HoldsRecord(Line(x, s).graph, n) && PublisherOf(n) == (x.caller.publisher, x.caller.boot)
    && n.currentness == IsCurrent && !n.revalidated && s.marks.epoch == x.caller.epoch && s.marks.store <= 1
    && Line(x, s).state.lifecycle != RetiredLineage
  }

  lemma LoneRoot(x: Scene, generation: nat) returns (ops: seq<Op>, s: Store, n: Node)
    requires Staged(x) && Generous(x.env.limits) && x.bindings == NO_BINDINGS && generation != 0
    ensures Alone(x, ops, s, n) && s.publishers == AfterRegistration(x.caller).publishers
  {
    hide Staged, On, Generous, RoomForOne, Dated, Leads, Line, IsRootCall, Step;
    GenerousHasRoom(x.env.limits);
    var c;
    c, s, n := RootStep(x, generation);
    ops := Opening(x.caller) + [PublishOp(c)];
    var r := RootCallIs(x, generation);
    StagedFree(x);
    RootIsPublished(x.env, c, r, x.caller);
    RunHere(x, ops, s);
    LineHere(x, s);
    LoneRecord(x, ops, s, r, n, generation);
  }

  lemma RootCallIs(x: Scene, generation: nat) returns (r: Request)
    requires Staged(x) && x.bindings == NO_BINDINGS && generation != 0
    ensures r == RootRequest(x, Opening(x.caller), generation) && r.key == x.key &&
            r.authority == Signed(x.caller, Opening(x.caller))
    ensures IsRootCall(x.env, RootCall(x, Opening(x.caller), generation), r, x.caller) && IsCaller(x.caller)
  {
    hide Normalize, CheckLineageKey, Env.CollisionFree, ValidateBindingFields;
    r := RootRequest(x, Opening(x.caller), generation);
    RootSubmits(x, Opening(x.caller), generation);
  }

  lemma RunHere(x: Scene, ops: seq<Op>, s: Store)
    requires On(x, ops, s)
    ensures Leads(x.env, ops, s) && s == Run(x.env, EMPTY_STORE, ops) && s.lineages.Keys <= {Lid(x)}
    ensures s.marks.epoch == x.caller.epoch
  {
    hide Obeys, AllAccepted, Run, Young, StageFreshness;
  }

  lemma LoneRecord(x: Scene, ops: seq<Op>, s: Store, r: Request, n: Node, generation: nat)
    requires On(x, ops, s) && StandsAt(x, s, n, generation) && StandsAlone(Line(x, s), r)
    requires r.authority.publisher == x.caller.publisher && r.authority.boot == x.caller.boot && s.marks.store <= 1
    ensures Alone(x, ops, s, n)
  {
    hide Leads, BoundAt, SizeWithin, IndexedWithin, StageFreshness;
  }

  /** The store after the registration of another publisher. */
  function WithPublisher(s: Store, v: Caller): Store {
    s.(publishers := s.publishers[(v.publisher, v.boot) := PublisherRecord(v.epoch, Fabric, true, false)])
  }

  lemma RefreshNobody(s: Store)
    ensures RefreshOwned(s, {}) == s
  {
    hide Recomputed;
    var s' := RefreshOwned(s, {});
    forall lid | lid in s.lineages ensures s'.lineages[lid] == s.lineages[lid] {
      assert s'.lineages[lid].graph.nodes == s.lineages[lid].graph.nodes;
    }
    assert s'.lineages == s.lineages;
  }

  lemma FreshRegistration(env: Env, s: Store, w: Caller, v: Caller)
    requires IsCaller(v) && s.marks.epoch == v.epoch && Generous(env.limits) && v.publisher != w.publisher
    requires s.publishers == AfterRegistration(w).publishers
    ensures Register(env, s, v.publisher, v.boot, v.epoch, Fabric) == OpResult(WithPublisher(s, v), Ok)
  {
    hide RefreshOwned;
    var p := s.publishers;
    assert OtherLiveBoots(p, v.publisher, v.boot) == {};
    assert FenceAll(p, {}) == p;
    assert BootNodes(s.indexes, {}) == {};
    RefreshNobody(WithPublisher(s, v));
  }

  lemma NoneIsOthers(x: Scene, ops: seq<Op>, s: Store, n: Node, v: Caller)
    requires Alone(x, ops, s, n) && v.publisher != x.caller.publisher
    ensures NoneHeldFenced(s, (v.publisher, v.boot))
  {
    hide Leads;
    forall lid, id | lid in s.lineages && id in s.lineages[lid].graph.nodes
      ensures PublisherOf(s.lineages[lid].graph.nodes[id]) != (v.publisher, v.boot)
    {
      assert lid in s.lineages.Keys && id in s.lineages[lid].graph.nodes.Keys;
    }
  }

  lemma RegistrationRespects(env: Env, s: Store, v: Caller)
    requires NoneHeldFenced(s, (v.publisher, v.boot))
    ensures RespectsAll(env, s, RegisterOp(v.publisher, v.boot, v.epoch, Fabric), EVERY_RULE)
  {
    hide NoneHeldFenced, Register, RespectsRequest, TypedCall, AllowedCompact, FirstAnnouncementCovers;
  }

  /** A second publisher registers: nothing else changes. */
  lemma AnotherRegisters(x: Scene, ops: seq<Op>, s: Store, n: Node, v: Caller) returns (op: Op)
    requires Alone(x, ops, s, n) && Generous(x.env.limits) && s.publishers == AfterRegistration(x.caller).publishers
    requires IsCaller(v) && v.publisher != x.caller.publisher && v.epoch == x.caller.epoch
    ensures Alone(x, ops + [op], WithPublisher(s, v), n)
  {
    hide Leads, Register, NoneHeldFenced, RespectsAll, AfterRegistration, Generous, Step, OutcomeOf;
    RegisterIs(x.env, s, v.publisher, v.boot, v.epoch, Fabric);
    op := RegisterOp(v.publisher, v.boot, v.epoch, Fabric);
    NoneIsOthers(x, ops, s, n, v);
    FreshRegistration(x.env, s, x.caller, v);
    RegistrationRespects(x.env, s, v);
    LeadsOn(x.env, ops, s, op);
  }

  lemma TakingDownAccepted(s: Store, w: Caller, a: Authority)
    requires IsCaller(w) && CheckAdministrator(s, a) == Ok && (w.publisher, w.boot) in s.publishers &&
             s.marks.store <= 1
    ensures
      var n := WorkerFence(w.publisher, w.boot);
      Notify(s, n, a) == OpResult(RefreshOwned(Announced(s, n), Collected(s.indexes, n)), Updated)
  {
    hide RefreshOwned, Collected, CheckAdministrator;
  }

  lemma TakingDownRespects(env: Env, s: Store, w: Caller, a: Authority)
    requires s.marks.store <= 1
    ensures RespectsAll(env, s, NotifyOp(WorkerFence(w.publisher, w.boot), a), EVERY_RULE)
  {
    hide RespectsRequest, TypedCall, AllowedCompact, NoneHeldFenced, Register;  }

  /** A CURRENT record, its boot down. */
  lemma FencedWhenDown(st: LineageState, n: Node, n': Node, m: Watermarks, m': Watermarks)
    requires Compute(st, n, m, Live) == IsCurrent && !n.revalidated
    requires m' == m.(store := m'.store) && n' == n.(currentness := n'.currentness)
    ensures Compute(st, n', m', Fenced) == FencedPublisher
  {
    hide EvidenceGet;
  }

  /** Taking the boot down re-evaluates; nothing else of the record changes. */
  lemma TakingDownLands(x: Scene, s: Store, n: Node, a: Authority) returns (t: Store, n': Node)
    requires IsCaller(x.caller) && CheckAdministrator(s, a) == Ok && s.marks.store <= 1 && Lid(x) in s.lineages
    requires (x.caller.publisher, x.caller.boot) in s.publishers && HoldsRecord(Line(x, s).graph, n)
    ensures Notify(s, WorkerFence(x.caller.publisher, x.caller.boot), a) == OpResult(t, Updated)
    ensures t.marks == Marked(s).marks && t.publishers == Unlive(s.publishers, (x.caller.publisher, x.caller.boot))
    ensures Lid(x) in t.lineages && LineageAt(t, Lid(x)).state == LineageAt(s, Lid(x)).state
    ensures HoldsRecord(LineageAt(t, Lid(x)).graph, n') && n' == n.(currentness := n'.currentness)
  {
    hide RefreshOwned, Refreshed, Collected, Notify, CheckAdministrator, SameRecords, IsCaller, LineageAt, Unlive;
    var note, lid := WorkerFence(x.caller.publisher, x.caller.boot), Lid(x);
    TakingDownAccepted(s, x.caller, a);
    var s1, ids := Announced(s, note), Collected(s.indexes, note);
    t := RefreshOwned(s1, ids);
    RefreshOwnedAt(s1, ids);
    LineHere(x, s);
    LineHere(x, s1);
    RefreshedRecord(s1, ids, lid, n);
    RefreshedFrame(s1, ids, lid);
    n' := LineageAt(t, lid).graph.nodes[n.id];
  }

  /** The second publisher takes the first one's boot down: its record is held FENCED_PUBLISHER. */
  lemma BootTakenDown(x: Scene, ops: seq<Op>, s: Store, n: Node, a: Authority)
    returns (op: Op, t: Store, n': Node)
    requires x.env.CollisionFree() && IsCaller(x.caller) && Alone(x, ops, s, n) && CheckAdministrator(s, a) == Ok
    requires LivenessOf(s.publishers, (x.caller.publisher, x.caller.boot)) == Live
    ensures Leads(x.env, ops + [op], t) && Held(t, Lid(x), n') && PublisherOf(n') == PublisherOf(n)
    ensures t.publishers == Unlive(s.publishers, (x.caller.publisher, x.caller.boot)) && t.marks.epoch == s.marks.epoch
  {
    hide Leads, Env.CollisionFree, Notify, Sound, Placed, AllTracked, CacheAgrees, Originated, CheckAdministrator,
      RespectsAll, IsCaller, LineageAt, Step, OutcomeOf, Held;
    op := NotifyOp(WorkerFence(x.caller.publisher, x.caller.boot), a);
    NotifyIs(x.env, s, WorkerFence(x.caller.publisher, x.caller.boot), a);
    t, n' := TakingDownLands(x, s, n, a);
    TakingDownRespects(x.env, s, x.caller, a);
    LeadsOn(x.env, ops, s, op);
    LineHere(x, s);
    LeadsKeeps(x.env, ops, s);
    LeadsKeeps(x.env, ops + [op], t);
    DownRecord(s, t, Lid(x), n, n');
  }

  lemma LineHere(x: Scene, s: Store)
    requires Lid(x) in s.lineages
    ensures LineageAt(s, Lid(x)) == Line(x, s)
  {
  }

  /** What taking a boot down leaves of the record, whether or not it was collected. */
  lemma DownRecord(s: Store, t: Store, lid: nat, n: Node, n': Node)
    requires CacheAgrees(s) && CacheAgrees(t) && lid in s.lineages && lid in t.lineages
    requires HoldsRecord(LineageAt(s, lid).graph, n) && HoldsRecord(LineageAt(t, lid).graph, n')
    requires LineageAt(t, lid).state == LineageAt(s, lid).state && n' == n.(currentness := n'.currentness)
    requires n.currentness == IsCurrent && !n.revalidated && t.marks == s.marks.(store := t.marks.store)
    requires LineageAt(s, lid).state.lifecycle != RetiredLineage
    requires LivenessOf(s.publishers, PublisherOf(n)) == Live && LivenessOf(t.publishers, PublisherOf(n)) == Fenced
    ensures Held(t, lid, n')
  {
    hide Compute, LivenessOf;
    var st := LineageAt(s, lid).state;
    CacheAgreesAt(s, lid);
    CacheAgreesAt(t, lid);
    assert AgreesAt(st, LineageAt(s, lid).graph, s.marks, s.publishers, n.id);
    assert AgreesAt(st, LineageAt(t, lid).graph, t.marks, t.publishers, n'.id);
    FencedWhenDown(st, n, n', s.marks, t.marks);
  }

  lemma ReturnIsRule(x: Scene, s: Store, n: Node)
    requires Held(s, Lid(x), n) && PublisherOf(n) == (x.caller.publisher, x.caller.boot)
    requires Register(x.env, s, x.caller.publisher, x.caller.boot, x.caller.epoch, Fabric).outcome == Ok
    ensures
      var op := RegisterOp(x.caller.publisher, x.caller.boot, x.caller.epoch, Fabric);
      RespectsAll(x.env, s, op, EVERY_RULE - {CacheSafe}) && !Respects(x.env, s, op, CacheSafe)
  {
    hide Register, RespectsRequest, TypedCall, AllowedCompact, FirstAnnouncementCovers;
  }

  /** The boot may come back: it is down, not fenced. */
  lemma ReturnBreaks(x: Scene, ops: seq<Op>, s: Store, n: Node) returns (last: Op)
    requires x.env.CollisionFree() && IsCaller(x.caller) && Leads(x.env, ops, s) && Held(s, Lid(x), n)
    requires PublisherOf(n) == (x.caller.publisher, x.caller.boot)
    requires Register(x.env, s, x.caller.publisher, x.caller.boot, x.caller.epoch, Fabric).outcome == Ok
    ensures LastBreaks(x.env, ops, s, last, CacheSafe) && StaleFenced(Step(x.env, s, last), Lid(x), n)
  {
    hide Leads, Sound, Placed, AllTracked, CacheAgrees, Originated, Env.CollisionFree, Register, StaleFenced, Step,
      OutcomeOf, Held, Respects;
    RegisterIs(x.env, s, x.caller.publisher, x.caller.boot, x.caller.epoch, Fabric);
    ReturnIsRule(x, s, n);
    var w := x.caller;
    last := RegisterOp(w.publisher, w.boot, w.epoch, Fabric);
    LeadsKeeps(x.env, ops, s);
    HeldTurnsStale(x.env, s, w.publisher, w.boot, w.epoch, Fabric, Lid(x), n);
  }

  lemma ReturnAccepted(env: Env, s: Store, w: Caller, v: Caller)
    requires IsCaller(w) && s.marks.epoch == w.epoch && Generous(env.limits) && v.publisher != w.publisher
    requires s.publishers == map[
      (w.publisher, w.boot) := PublisherRecord(w.epoch, Fabric, false, false),
      (v.publisher, v.boot) := PublisherRecord(v.epoch, Fabric, true, false)]
    ensures Register(env, s, w.publisher, w.boot, w.epoch, Fabric).outcome == Ok
  {
    hide RefreshOwned, BootNodes, OtherLiveBoots, FenceAll;
    assert s.publishers.Keys == {(w.publisher, w.boot), (v.publisher, v.boot)};
    assert |s.publishers.Keys| == |s.publishers|;
  }

  lemma BothServe(s: Store, w: Caller, v: Caller, a: Authority)
    requires s.publishers == AfterRegistration(w).publishers && s.marks.epoch == v.epoch
    requires IsCaller(v) && v.publisher != w.publisher && a == Signed(v, [])
    ensures CheckAdministrator(WithPublisher(s, v), a) == Ok
    ensures LivenessOf(WithPublisher(s, v).publishers, (w.publisher, w.boot)) == Live
    ensures Unlive(WithPublisher(s, v).publishers, (w.publisher, w.boot)) == map[
      (w.publisher, w.boot) := PublisherRecord(w.epoch, Fabric, false, false),
      (v.publisher, v.boot) := PublisherRecord(v.epoch, Fabric, true, false)]
  {
  }

  /** Stale currentness, by a registration. A publisher registers and publishes a root, a second
      publisher registers and takes the first one's boot down, and the first registers again: every
      operation is accepted, and afterwards the record is stored FENCED_PUBLISHER where recomputation
      gives CURRENT. Only the last operation breaks an assumption, and none about the structure. */
  lemma StaleCacheRun(env: Env, key: LineageKey, generation: nat, w: Caller, v: Caller)
    returns (ops: seq<Op>, s: Store, last: Op, n: Node)
    requires env.CollisionFree() && Generous(env.limits) && CheckLineageKey(key, env.limits) == Ok && generation != 0
    requires IsCaller(w) && IsCaller(v) && v.publisher != w.publisher && v.epoch == w.epoch
    ensures LastBreaks(env, ops, s, last, CacheSafe) && StaleFenced(Step(env, s, last), env.lineageIdOf(key), n)
  {
    hide CheckLineageKey, Env.CollisionFree, Generous, Staged, Leads, Line, Step, Register, CheckAdministrator, Held,
      StaleFenced, LastBreaks;
    var x, a := Scene(env, key, w, NO_BINDINGS), Signed(v, []);
    UnboundStaged(env, key, w);
    var ops1, s1, n1 := LoneRoot(x, generation);
    var op2 := AnotherRegisters(x, ops1, s1, n1, v);
    BothServe(s1, w, v, a);
    var op3;
    op3, s, n := BootTakenDown(x, ops1 + [op2], WithPublisher(s1, v), n1, a);
    ops := ops1 + [op2] + [op3];
    ReturnAccepted(env, s, w, v);
    last := ReturnBreaks(x, ops, s, n);
  }

  // ---------------------------------------------------------------------------------------
  // A compaction whose protecting traversal overflows
  // ---------------------------------------------------------------------------------------

  /** An ancestor of the current record, within the retained depth, that the compaction replaces. */
  ghost predicate ReplacesAncestor(env: Env, s: Store, lid: nat, id: nat, last: Op) {
    match last
    case CompactOp(l, _, options) =>
      && l == lid && id in AncestryOf(env.limits, LineageAt(s, lid), options)
      && id != LineageAt(s, lid).state.currentNode && id in LineageAt(s, lid).graph.nodes
      && IsRouteRecord(LineageAt(s, lid), id) && !IsRouteRecord(LineageAt(Step(env, s, last), lid), id)
    case _ => false
  }

  predicate IsRouteRecord(lin: Lineage, id: nat) {
    id in lin.graph.nodes && lin.graph.nodes[id].IsRouteState()
  }

  /** One step is enough to find the cause, and enough to overflow. */
  lemma CauseInReach(x: Scene, s: Store, cause: nat)
    requires x.env.limits.maxDepth > 0 && x.env.limits.maxResults == 1
    requires (Line(x, s).state.currentNode, cause) in EdgeArcs(Line(x, s).graph) &&
             cause != Line(x, s).state.currentNode
    ensures cause in AncestryOf(x.env.limits, Line(x, s), WITHOUT_BOUNDS)
    ensures RetainedAncestry(x.env, Line(x, s), WITHOUT_BOUNDS) == {}
  {
    hide Line, EdgeArcs;
    var arcs, current := EdgeArcs(Line(x, s).graph), Line(x, s).state.currentNode;
    var ball := AncestryOf(x.env.limits, Line(x, s), WITHOUT_BOUNDS);
    assert Ball(arcs, current, 0) == {current};
    assert cause in Ball(arcs, current, 1);
    BallGrows(arcs, current, 1, x.env.limits.maxDepth);
    BallGrows(arcs, current, 0, x.env.limits.maxDepth);
    SubsetSize({current, cause}, ball);
  }

  /** Of two records, one of them current, a compaction that replaces any replaces the other. */
  lemma TheOtherIsReplaced(x: Scene, s: Store, id: nat)
    requires WellFormed(Line(x, s).graph) && Lid(x) in s.lineages
    requires Line(x, s).graph.nodes.Keys == {id, Line(x, s).state.currentNode} && id != Line(x, s).state.currentNode
    requires CompactLineage(x.env, Line(x, s), Signed(x.caller, []), WITHOUT_BOUNDS).count > 0
    ensures
      var done := CompactLineage(x.env, Line(x, s), Signed(x.caller, []), WITHOUT_BOUNDS);
      id in done.graph.nodes && !done.graph.nodes[id].IsRouteState()
  {
    hide Line, Doomed, TombstonesValid, CompactLineage, RetainedAncestry, IsHistoryRecord, Signed;
    var a, ids := Signed(x.caller, []), Doomed(x.env, Line(x, s), Signed(x.caller, []), WITHOUT_BOUNDS);
    CompactLineageExact(x.env, Line(x, s), a, WITHOUT_BOUNDS);
    var k :| k in ids;
    assert k in Line(x, s).graph.nodes.Keys;
  }

  lemma TwoRecords(x: Scene, generation: nat, next: nat) returns (ops: seq<Op>, s: Store, n: Node, cause: nat)
    requires Staged(x) && Generous(x.env.limits) && 0 < generation < next
    ensures On(x, ops, s) && |ops| < 8 && StandsAt(x, s, n, next) && Dated(x, s)
    ensures Line(x, s).graph.nodes.Keys == {cause, n.id} && cause != n.id
    ensures LeadsOnlyTo(Line(x, s).graph, n.id, cause) && HoldsIn(Line(x, s).graph, cause, Superseded)
    ensures IsRouteRecord(Line(x, s), cause)
  {
    hide Staged, On, Generous, StandsAt, Dated, LeadsOnlyTo, Poised, Line, Step, HoldsIn;
    GenerousHasRoom(x.env.limits);
    var c1, s1, n1 := RootStep(x, generation);
    var ops1 := Opening(x.caller) + [PublishOp(c1)];
    GenerousIsPoised(x, ops1, s1);
    var c2;
    c2, s, n := SuccessorStep(x, ops1, s1, n1, generation, next);
    ops, cause := ops1 + [PublishOp(c2)], n1.id;
    SupersededRoute(x, ops1, s1, s, n1, n, generation, next);
  }

  lemma SupersededRoute(x: Scene, ops: seq<Op>, s: Store, t: Store, n: Node, n': Node, generation: nat, next: nat)
    requires StandsAt(x, s, n, generation) && n'.id != n.id
    requires NewOrSucceeds(Line(x, s).graph, Line(x, t).graph, SuccessorRequest(x, ops, next, n.id), n', n.id)
    requires n.id in Line(x, t).graph.nodes
    ensures IsRouteRecord(Line(x, t), n.id)
  {
    hide Line;
  }

  /** A superseded record that nothing protects, though it is within reach. */
  lemma OverflowUnprotects(x: Scene, ops: seq<Op>, s: Store, n: Node, cause: nat, generation: nat)
    requires Staged(x) && On(x, ops, s) && |ops| < 8 && StandsAt(x, s, n, generation) && Dated(x, s)
    requires Line(x, s).graph.nodes.Keys == {cause, n.id} && cause != n.id && IsRouteRecord(Line(x, s), cause)
    requires LeadsOnlyTo(Line(x, s).graph, n.id, cause) && HoldsIn(Line(x, s).graph, cause, Superseded)
    requires x.env.limits.maxDepth > 0 && x.env.limits.maxResults == 1 && x.env.limits.maxBatch > 0
    ensures cause in AncestryOf(x.env.limits, Line(x, s), WITHOUT_BOUNDS)
    ensures Compact(x.env, s, Lid(x), Signed(x.caller, []), WITHOUT_BOUNDS).outcome == Ok
    ensures !IsRouteRecord(LineageAt(Compact(x.env, s, Lid(x), Signed(x.caller, []), WITHOUT_BOUNDS).store, Lid(x)),
            cause)
  {
    hide On, Staged, Dated, Compact, CompactLineage, RetainedAncestry, Line, LineageSound, Standing, CountsExact,
      WellFormed, AncestryOf, EdgeArcs, Signed, LineageAfter, HistoryRecords;
    LineSound(x, ops, s);
    CauseInReach(x, s, cause);
    var d := RecordHere(x, ops, s, cause);
    assert d.IsRouteState();
    CompactionReplaces(x, ops, s, WITHOUT_BOUNDS, d);
    TheOtherIsReplaced(x, s, cause);
    CallerMayCompact(x, ops, s, WITHOUT_BOUNDS);
    LineHere(x, s);
    CompactedIs(s, Lid(x), CompactLineage(x.env, Line(x, s), Signed(x.caller, []), WITHOUT_BOUNDS));
  }

  lemma CompactedIs(s: Store, lid: nat, done: Compaction)
    requires lid in s.lineages && done.refused == Ok && AfterCompaction(s, lid, done).outcome == Ok
    ensures LineageAt(AfterCompaction(s, lid, done).store, lid).graph == done.graph
  {
    hide HistoryRecords;
  }

  lemma RecordHere(x: Scene, ops: seq<Op>, s: Store, id: nat) returns (d: Node)
    requires Staged(x) && On(x, ops, s) && id in Line(x, s).graph.nodes
    ensures HoldsRecord(Line(x, s).graph, d) && d.id == id
  {
    hide On, Staged, Line, LineageSound, Standing, CountsExact, HasOrigin, ValidateNode;
    LineSound(x, ops, s);
    d := Line(x, s).graph.nodes[id];
    NodeIsSound(x.env, Lid(x), Line(x, s), id);
  }

  /** An overflowing compaction. Where a traversal may answer with one record only, a publisher
      registers, publishes a root and a successor, and compacts without bounds: the direct cause of
      the current record, well within the retained depth, is replaced. No assumption is broken. */
  lemma OverflowRun(env: Env, key: LineageKey, w: Caller) returns (ops: seq<Op>, s: Store, last: Op, id: nat)
    requires env.CollisionFree() && Generous(env.limits) && IsCaller(w) && CheckLineageKey(key, env.limits) == Ok
    requires env.limits.maxResults == 1
    ensures Leads(env, ops + [last], Step(env, s, last)) && Leads(env, ops, s)
    ensures ReplacesAncestor(env, s, env.lineageIdOf(key), id, last)
  {
    hide CheckLineageKey, Env.CollisionFree, IsCaller, Generous, Staged, Line, Leads, Young, Serves, StageFreshness,
      Dated, LeadsOnlyTo, HoldsIn, Compact, AncestryOf, IsRouteRecord, Step, OutcomeOf;
    var x := Scene(env, key, w, NO_BINDINGS);
    UnboundStaged(env, key, w);
    GenerousHasRoom(env.limits);
    var n;
    ops, s, n, id := TwoRecords(x, 1, 2);
    OverflowUnprotects(x, ops, s, n, id, 2);
    var t := CompactionLeads(x, ops, s, WITHOUT_BOUNDS);
    last := CompactOp(Lid(x), Signed(w, []), WITHOUT_BOUNDS);
    CompactIs(env, s, Lid(x), Signed(w, []), WITHOUT_BOUNDS);
    LineHere(x, s);
  }

  // ---------------------------------------------------------------------------------------
  // An image that the decoder refuses
  // ---------------------------------------------------------------------------------------

  /** A lineage may hold one edge; nothing else is short. */
  predicate OneEdgeOnly(limits: Limits) {
    && limits.maxEdges == 1 && limits.maxBatch > 0 && limits.maxNodes >= 8 && limits.maxHistory >= 8
    && limits.maxAttempts >= 8 && limits.maxParents > 0 && limits.maxChildren > 0 && limits.maxLineages > 0
    && limits.maxPublishers > 0
  }

  lemma OneEdgeHasRoom(limits: Limits)
    requires OneEdgeOnly(limits)
    ensures RoomForOne(limits) && limits.maxEdges == 1
  {
  }

  lemma EdgelessIsPoised(x: Scene, ops: seq<Op>, s: Store)
    requires Staged(x) && On(x, ops, s) && |ops| < 8 && OneEdgeOnly(x.env.limits) && Line(x, s).graph.edges == map[]
    ensures Poised(x, ops, s)
  {
    hide Leads, LineageSound, Standing, Staged, Serves, StageFreshness, CountsExact, WellFormed, EdgeBound,
      IndexedWithin;
    LineSound(x, ops, s);
    HistoryIsPart(Line(x, s));
  }

  /** Two records are declared, and no edge. */
  lemma TwoDeclared(x: Scene) returns (ops: seq<Op>, s: Store, from: Node, to: Node)
    requires Staged(x) && OneEdgeOnly(x.env.limits) && x.bindings == POLICY_BOUND
    ensures Poised(x, ops, s) && Line(x, s).graph.edges == map[] && from.id != to.id
    ensures HoldsRecord(Line(x, s).graph, from) && HoldsRecord(Line(x, s).graph, to)
  {
    hide Staged, On, OneEdgeOnly, Line, Poised, Step;
    OneEdgeHasRoom(x.env.limits);
    Opened(x);
    NoEdgesYet(x);
    var c1, s1, n1 := DeclarationStep(x, Opening(x.caller), AfterRegistration(x.caller));
    var ops1 := Opening(x.caller) + [PublishOp(c1)];
    EdgelessIsPoised(x, ops1, s1);
    var c2;
    c2, s, to := DeclarationStep(x, ops1, s1);
    ops := ops1 + [PublishOp(c2)];
    EdgelessIsPoised(x, ops, s);
    from := RecordHere(x, ops, s, n1.id);
  }

  lemma NoEdgesYet(x: Scene)
    ensures Line(x, AfterRegistration(x.caller)).graph.edges == map[]
  {
  }

  /** A link is the lineage's one edge, and its ledger entry lists it twice. */
  lemma LinkStep(x: Scene, ops: seq<Op>, s: Store, from: Node, to: Node) returns (op: Op, t: Store)
    requires Poised(x, ops, s) && Line(x, s).graph.edges == map[] && from.id != to.id
    requires HoldsRecord(Line(x, s).graph, from) && HoldsRecord(Line(x, s).graph, to) && x.env.limits.maxEdges == 1
    ensures Leads(x.env, ops + [op], t) && ListsALink(t, x.env.limits)
  {
    hide Leads, Staged, Took, Prompts, Spacious, Step, Settled, Ready, Acquired, IndexNode, HasLink, Young, Serves,
      StageFreshness;
    var node, e := LinkPrompts(x, ops, s, from, to);
    var c, r := LinkCall(x, ops, from.id, to.id), LinkRequest(x, ops, from.id, to.id);
    op := PublishOp(c);
    t := Step(x.env, s, op);
    GoesOn(x, ops, s, c, r, node, [e]);
    var s1 := TookSettled(x, s, t, r, node, [e]);
    LinkListsTwice(x.env, Marked(s1), Line(x, s), r, node, e);
  }

  /** Encoding succeeds and decoding what was encoded does not. */
  ghost predicate NotReadBack(env: Env, hash: seq<B.Byte> -> nat, s: Store) {
    Representable(Export(s), env.limits) ==>
      match EncodeImage(hash, Export(s), env.limits)
      case Failure(_) => true
      case Success(bytes) => DecodeImage(env, hash, bytes) == Failure(StoreCorrupt)
  }

  lemma LinkedIsUnreadable(env: Env, hash: seq<B.Byte> -> nat, ops: seq<Op>, s: Store)
    requires env.CollisionFree() && IsHash(hash) && Leads(env, ops, s) && ListsALink(s, env.limits)
    ensures NotReadBack(env, hash, s)
  {
    hide Run, Obeys, AllAccepted, Env.CollisionFree, IsHash, ListsALink, Representable, EncodeImage, DecodeImage,
      GoodImage, Export;
    ObeysFewer(env, EMPTY_STORE, ops, EVERY_RULE, {Fits});
    ReachedStoreReadsBack(env, hash, ops);
  }

  /** An unreadable image. Where a lineage may hold one edge only, a publisher registers, declares
      two records and links them: the link's ledger entry lists its edge twice, so the image that is
      saved is refused when it is read back. No assumption is broken. */
  lemma UnreadableImageRun(env: Env, hash: seq<B.Byte> -> nat, key: LineageKey, w: Caller)
    returns (ops: seq<Op>, s: Store)
    requires env.CollisionFree() && IsHash(hash) && OneEdgeOnly(env.limits) && IsCaller(w)
    requires CheckLineageKey(key, env.limits) == Ok
    ensures Leads(env, ops, s) && ListsALink(s, env.limits) && NotReadBack(env, hash, s)
  {
    hide Leads, Env.CollisionFree, CheckLineageKey, ListsALink, Staged, Poised, Line, IsCaller, IsHash, NotReadBack;
    var x := Scene(env, key, w, POLICY_BOUND);
    PolicyStaged(env, key, w);
    OneEdgeHasRoom(env.limits);
    var ops1, s1, from, to := TwoDeclared(x);
    var op;
    op, s := LinkStep(x, ops1, s1, from, to);
    ops := ops1 + [op];
    LinkedIsUnreadable(env, hash, ops, s);
  }
}
