// Runs that exist. For every environment without collisions and with ordinary limits: a root that
// is published, and a life of a lineage in which every kind of operation is accepted and every
// assumption of the theorems about runs holds.
module SampleRuns {
  import opened Types
  import opened Ordering
  import opened Digraph
  import opened GraphModel
  import opened StoreTypes
  import opened CurrentnessModel
  import opened Requests
  import opened CommitPipeline
  import opened Operations
  import opened Soundness
  import opened Admission
  import opened Evolution
  import opened Settlement
  import opened Transition
  import opened LineageSteps
  import opened CommitSteps
  import opened CommitCache
  import opened CommitInvariants
  import opened RegistrySteps
  import opened CompactSteps
  import opened Progress
  import opened Runs
  import opened Origins
  import opened Acceptance
  import opened Scenes
  import opened Submissions
  import opened Aftermath

  // ---------------------------------------------------------------------------------------
  // Registration
  // ---------------------------------------------------------------------------------------

  function Opening(w: Caller): seq<Op> {
    [RegisterOp(w.publisher, w.boot, w.epoch, Fabric)]
  }

  /** The store after the registration. */
  function AfterRegistration(w: Caller): Store {
    EMPTY_STORE.(marks := EMPTY_STORE.marks.(epoch := w.epoch),
                 publishers := map[(w.publisher, w.boot) := PublisherRecord(w.epoch, Fabric, true, false)])
  }

  lemma RegistrationAccepted(env: Env, w: Caller)
    requires IsCaller(w) && env.limits.maxPublishers > 0
    ensures Register(env, EMPTY_STORE, w.publisher, w.boot, w.epoch, Fabric) == OpResult(AfterRegistration(w), Ok)
  {
    assert OtherLiveBoots(map[], w.publisher, w.boot) == {};
    assert FenceAll(map[], {}) == map[];
    var s := AfterRegistration(w);
    assert RefreshOwned(s, BootNodes(s.indexes, {})).lineages == s.lineages;
  }

  lemma RegistrationLeads(env: Env, w: Caller)
    requires IsCaller(w) && env.limits.maxPublishers > 0
    ensures Leads(env, Opening(w), AfterRegistration(w)) && Serves(AfterRegistration(w), w)
  {
    hide Register, AfterRegistration, Step, OutcomeOf, RespectsAll;
    RegistrationAccepted(env, w);
    RegisterIs(env, EMPTY_STORE, w.publisher, w.boot, w.epoch, Fabric);
    FirstRegistrationRespects(env, w);
    var op := RegisterOp(w.publisher, w.boot, w.epoch, Fabric);
    assert [] + [op] == Opening(w);
    LeadsOn(env, [], EMPTY_STORE, op);
    RegisteredServes(w);
  }

  lemma FirstRegistrationRespects(env: Env, w: Caller)
    ensures RespectsAll(env, EMPTY_STORE, RegisterOp(w.publisher, w.boot, w.epoch, Fabric), EVERY_RULE)
  {
    hide Register, RespectsRequest, TypedCall, AllowedCompact, FirstAnnouncementCovers;
  }

  lemma RegisteredServes(w: Caller)
    requires IsCaller(w)
    ensures Serves(AfterRegistration(w), w)
  {
  }

  /** Room for one publisher, one lineage and one record. */
  predicate RoomForOne(limits: Limits) {
    && limits.maxPublishers > 0 && limits.maxLineages > 0 && limits.maxBatch > 0 && limits.maxNodes > 0
    && limits.maxEdges > 0 && limits.maxParents > 0 && limits.maxChildren > 0 && limits.maxHistory > 0
    && limits.maxAttempts > 0
  }

  lemma Opened(x: Scene)
    requires Staged(x) && RoomForOne(x.env.limits)
    ensures Poised(x, Opening(x.caller), AfterRegistration(x.caller))
    ensures Line(x, AfterRegistration(x.caller)) == NewLineage(Lid(x), x.key)
  {
    hide Leads, CheckLineageKey, ValidateBindingFields, Env.CollisionFree, LivenessOf;
    RegistrationLeads(x.env, x.caller);
  }

  // ---------------------------------------------------------------------------------------
  // A root
  // ---------------------------------------------------------------------------------------

  /** A root request of the caller, bound to nothing upstream. */
  predicate IsRootRequest(r: Request, w: Caller) {
    && r.rootReason.Some? && r.edges == [] && r.bindings == NO_BINDINGS && r.explicitLineage == None
    && r.authority.publisher == w.publisher && r.authority.boot == w.boot && r.authority.epoch == w.epoch
    && r.authority.HasIdentity() && r.authority.scope == Fabric
    && r.authority.expectedLineage == None && r.authority.expectedStore == None
    && EvidenceGet(r.evidence, FABRIC_EPOCH_FIELD) in {None, Some(w.epoch)}
  }

  predicate IsRootCall(env: Env, c: ApiCall, r: Request, w: Caller) {
    c.PublishRoute? && Normalize(c, env.limits) == Success(r) && IsRootRequest(r, w)
  }

  lemma RootIsNormal(env: Env, c: ApiCall, r: Request, w: Caller)
    requires IsRootCall(env, c, r, w)
    ensures NormalForm(r) && r.kind == RouteStateKind
  {
    hide NormalForm, IsRootRequest, CheckLineageKey, ValidateBindings;
    NormalizeGivesNormalForm(c, env.limits);
  }

  lemma RootIsAuthorized(env: Env, r: Request, w: Caller)
    requires IsCaller(w) && IsRootRequest(r, w)
    ensures Authorize(env, AfterRegistration(w), r) == Ok
  {
    hide EvidenceGet;
  }

  lemma RootBuilds(env: Env, r: Request, w: Caller) returns (node: Node)
    requires IsRootRequest(r, w) && NormalForm(r) && r.kind == RouteStateKind && RoomForOne(env.limits)
    ensures Builds(env, AfterRegistration(w), r, node, [])
    ensures Spacious(env.limits, LineageFor(env, AfterRegistration(w), r))
    ensures FreshAttempt(LineageFor(env, AfterRegistration(w), r), r)
  {
    hide Env.NodeId, EvidenceGet, StageChecks, Authority.HasIdentity;
    var s, lid := AfterRegistration(w), env.lineageIdOf(r.key);
    node := NewNode(env, BlankCore(lid, r), Current);
    NoEdgeChecked(env, Acquired(env, s, r), NewLineage(lid, r.key), lid, r, node);
  }

  lemma RootIsThrough(env: Env, c: ApiCall, r: Request, w: Caller) returns (node: Node)
    requires IsCaller(w) && IsRootCall(env, c, r, w) && RoomForOne(env.limits)
    ensures LetThrough(env, AfterRegistration(w), r, node, []) && NormalForm(r) && r.kind == RouteStateKind
  {
    hide NormalForm, Normalize, IsRootRequest, Authorize, Builds, Spacious, FreshAttempt;
    RootIsNormal(env, c, r, w);
    RootIsAuthorized(env, r, w);
    node := RootBuilds(env, r, w);
  }

  /** The one record of a lineage, the current one, at its generation, live and CURRENT. */
  predicate StandsAlone(lin: Lineage, r: Request) {
    var id := lin.state.currentNode;
    && lin.graph.nodes.Keys == {id} && lin.state.generation == r.generation
    && lin.graph.nodes[id].core.generation == r.generation && lin.graph.nodes[id].core.authority == r.authority
    && lin.graph.nodes[id].lifecycle == Current && lin.graph.nodes[id].currentness == IsCurrent
    && !lin.graph.nodes[id].revalidated
  }

  /** A record bound to nothing upstream, at its lineage's generation, by a live publisher of the
      present epoch. */
  lemma UnboundIsCurrent(st: LineageState, n: Node, marks: Watermarks)
    requires st.lifecycle == Active && n.lifecycle == Current && !n.revalidationRequired
    requires n.core.generation == st.generation && n.core.bindings == NO_BINDINGS
    requires n.core.authority.epoch == marks.epoch
    requires EvidenceGet(n.core.evidence, FABRIC_EPOCH_FIELD) in {None, Some(marks.epoch)}
    ensures Compute(st, n, marks, Live) == IsCurrent
  {
    hide EvidenceGet;
  }

  lemma RootObeys(env: Env, c: ApiCall, r: Request, w: Caller)
    requires IsRootCall(env, c, r, w) && AllowedCommit(env, AfterRegistration(w), r) && r.kind == RouteStateKind
    ensures RespectsAll(env, AfterRegistration(w), PublishOp(c), EVERY_RULE)
  {
    hide Normalize, AllowedCommit, Decision, EvidenceGet, Authority.HasIdentity;
  }

  lemma RootLeads(env: Env, c: ApiCall, r: Request, w: Caller, node: Node)
    requires env.CollisionFree() && IsCaller(w) && IsRootCall(env, c, r, w) && RoomForOne(env.limits)
    requires LetThrough(env, AfterRegistration(w), r, node, []) && NormalForm(r) && r.kind == RouteStateKind
    ensures
      var t := Step(env, AfterRegistration(w), PublishOp(c));
      && Leads(env, Opening(w) + [PublishOp(c)], t)
      && Took(Scene(env, r.key, w, NO_BINDINGS), AfterRegistration(w), t, r, node, [])
  {
    hide Leads, LetThrough, NormalForm, Invariant, Originated, Normalize, Commit, Applied, AllowedCommit, RoomForOne,
      Env.CollisionFree, Acquired, Step, OutcomeOf, RespectsAll, AfterRegistration, Prepared, Serves, EvidenceGet,
      Authority.HasIdentity;
    RoomForPublisher(env.limits);
    RegistrationLeads(env, w);
    LeadsKeeps(env, Opening(w), AfterRegistration(w));
    InvariantSound(env, AfterRegistration(w));
    LetThroughIsApplied(env, AfterRegistration(w), r, node, []);
    RootObeys(env, c, r, w);
    PublishIs(env, AfterRegistration(w), c, r);
    LeadsOn(env, Opening(w), AfterRegistration(w), PublishOp(c));
  }

  lemma RoomForPublisher(limits: Limits)
    requires RoomForOne(limits)
    ensures limits.maxPublishers > 0
  {
  }

  /** A root is published. From the empty store, a registered publisher's root publication is
      accepted: the lineage exists, holds that one record, and the record is the current one, at the
      lineage's generation, in lifecycle Current and CURRENT. The run meets every assumption. */
  lemma RootIsPublished(env: Env, c: ApiCall, r: Request, w: Caller)
    requires env.CollisionFree() && IsCaller(w) && IsRootCall(env, c, r, w) && RoomForOne(env.limits)
    ensures
      var ops := [RegisterOp(w.publisher, w.boot, w.epoch, Fabric), PublishOp(c)];
      var s := Run(env, EMPTY_STORE, ops);
      Leads(env, ops, s) && StandsAlone(LineageAt(s, env.lineageIdOf(r.key)), r)
  {
    hide Leads, LetThrough, NormalForm, Invariant, Originated, Step, Took, RoomForOne, Env.CollisionFree, IsRootCall,
      AfterRegistration;
    var x, s0 := Scene(env, r.key, w, NO_BINDINGS), AfterRegistration(w);
    var node := RootIsThrough(env, c, r, w);
    RootLeads(env, c, r, w, node);
    var ops, t := Opening(w) + [PublishOp(c)], Step(env, s0, PublishOp(c));
    LeadsKeeps(env, ops, t);
    LeadsHere(env, ops, t);
    RootAlone(x, c, r, t, node);
    assert ops == [RegisterOp(w.publisher, w.boot, w.epoch, Fabric), PublishOp(c)];
  }

  lemma LeadsHere(env: Env, ops: seq<Op>, s: Store)
    requires Leads(env, ops, s)
    ensures s == Run(env, EMPTY_STORE, ops)
  {
    hide Run, Obeys, AllAccepted;
  }

  lemma RootAlone(x: Scene, c: ApiCall, r: Request, t: Store, node: Node)
    requires Took(x, AfterRegistration(x.caller), t, r, node, []) && r.kind == RouteStateKind && IsCaller(x.caller)
    requires IsRootCall(x.env, c, r, x.caller) && Invariant(x.env, t)
    ensures Lid(x) in t.lineages && StandsAlone(LineageAt(t, Lid(x)), r)
  {
    hide Took, Ready, Settled, Sound, Placed, AllTracked, Compute, EvidenceGet, Normalize, IndexNode, Acquired,
      Authority.HasIdentity;
    var s := AfterRegistration(x.caller);
    var s1 := TookSettled(x, s, t, r, node, []);
    TookMoves(x, s, t, r, node, []);
    TookContent(x, s, t, r, node, []);
    NewRecordStands(x.env, s1, Line(x, s), Lid(x), r, node, [], Marked(s1));
    var n := Line(x, t).graph.nodes[node.id];
    CacheAgreesAt(t, Lid(x));
    assert AgreesAt(Line(x, t).state, Line(x, t).graph, t.marks, t.publishers, node.id);
    UnboundIsCurrent(Line(x, t).state, n, t.marks);
  }

  // ---------------------------------------------------------------------------------------
  // Further steps
  // ---------------------------------------------------------------------------------------

  /** The lineage stands at this live record, of this generation. */
  predicate StandsAt(x: Scene, s: Store, n: Node, generation: int) {
    && Lid(x) in s.lineages && Line(x, s).state.generation == generation && Line(x, s).state.currentNode == n.id
    && HoldsRecord(Line(x, s).graph, n) && n.IsRouteState() && n.core.generation == generation
    && n.lifecycle == Current && n.id != 0 && generation != 0
  }

  /** Every record of the lineage has a generation. */
  predicate Dated(x: Scene, s: Store) {
    forall id :: id in Line(x, s).graph.nodes ==> Line(x, s).graph.nodes[id].core.generation != 0
  }

  /** An invalid record that has not been compacted. */
  predicate Spent(x: Scene, s: Store, id: nat) {
    && HoldsIn(Line(x, s).graph, id, Invalid)
    && id in Line(x, s).graph.nodes && Line(x, s).graph.nodes[id].core.kind != CompactedSummary
  }

  ghost predicate KeepsSpent(x: Scene, s: Store, t: Store) {
    forall id :: Spent(x, s, id) ==> Spent(x, t, id)
  }

  lemma TookKeepsSpent(x: Scene, s: Store, t: Store, r: Request, node: Node, edges: seq<Edge>)
    requires Took(x, s, t, r, node, edges)
    ensures KeepsSpent(x, s, t)
  {
    hide Took, Line;
    TookMoves(x, s, t, r, node, edges);
    forall id | Spent(x, s, id) ensures Spent(x, t, id) {
      TookRecord(x, s, t, r, node, edges, id);
      assert id in Line(x, t).graph.nodes.Keys;
    }
  }

  lemma StaysDated(x: Scene, s: Store, t: Store, r: Request, node: Node, edges: seq<Edge>)
    requires Took(x, s, t, r, node, edges) && Dated(x, s) && node.core.generation != 0
    ensures Dated(x, t)
  {
    hide Took, Line;
    forall id | id in Line(x, t).graph.nodes ensures Line(x, t).graph.nodes[id].core.generation != 0 {
      TookRecord(x, s, t, r, node, edges, id);
    }
  }

  /** A publication of a route state or a correction of the current record puts the lineage at its
      record. */
  lemma StandsAtNew(x: Scene, s: Store, t: Store, r: Request, node: Node, edges: seq<Edge>, generation: nat)
    returns (n: Node)
    requires Took(x, s, t, r, node, edges) && Line(x, t).state.generation == generation && generation != 0
    requires r.kind == RouteStateKind || (r.kind == CorrectionKind && r.target == Line(x, s).state.currentNode)
    requires node.IsRouteState() && node.core.generation == generation
    ensures StandsAt(x, t, n, generation) && n.id == node.id && n.core == node.core
  {
    hide Took, Settled, Ready, Acquired, IndexNode, GoodRecord;
    var s1 := TookSettled(x, s, t, r, node, edges);
    TookMoves(x, s, t, r, node, edges);
    TookContent(x, s, t, r, node, edges);
    NewRecordStands(x.env, s1, Line(x, s), Lid(x), r, node, edges, Marked(s1));
    n := Line(x, t).graph.nodes[node.id];
    NewIsCurrent(x.env, Line(x, s), Lid(x), r, node);
  }

  lemma NewIsCurrent(env: Env, lin: Lineage, lid: nat, r: Request, node: Node)
    requires GoodRecord(env, lin, lid, r, node) && r.kind != DeclarationKind
    ensures node.lifecycle == Current
    ensures r.kind == RouteStateKind ==> node.IsRouteState() && node.core.generation == r.generation
  {
    hide ValidateNode;
  }

  /** A publisher registers and publishes a root. */
  lemma RootStep(x: Scene, generation: nat) returns (c: ApiCall, t: Store, n: Node)
    requires Staged(x) && RoomForOne(x.env.limits) && generation != 0
    ensures c == RootCall(x, Opening(x.caller), generation)
    ensures On(x, Opening(x.caller) + [PublishOp(c)], t) && StandsAt(x, t, n, generation) && Dated(x, t)
    ensures n.core.bindings == x.bindings && PublisherOf(n) == (x.caller.publisher, x.caller.boot)
    ensures t.marks == Marked(AfterRegistration(x.caller)).marks &&
            t.publishers == AfterRegistration(x.caller).publishers
    ensures Line(x, t).graph.nodes.Keys == {n.id}
  {
    hide On, Staged, Took, Prompts, RoomForOne, Spacious, Step, Settled, GoodRecord, AfterRegistration, Repositioned;
    var ops, s := Opening(x.caller), AfterRegistration(x.caller);
    Opened(x);
    var node := RootPrompts(x, ops, s, generation);
    var r := RootRequest(x, ops, generation);
    c, t := RootCall(x, ops, generation), Step(x.env, s, PublishOp(RootCall(x, ops, generation)));
    GoesOn(x, ops, s, c, r, node, []);
    TookMoves(x, s, t, r, node, []);
    TookContent(x, s, t, r, node, []);
    NewIsCurrent(x.env, Line(x, s), Lid(x), r, node);
    RouteStatePositions(x, s, t, r, node);
    n := StandsAtNew(x, s, t, r, node, [], generation);
    StaysDated(x, s, t, r, node, []);
    ContentOf(x.env, Line(x, s), Lid(x), r, node);
  }

  lemma RouteStatePositions(x: Scene, s: Store, t: Store, r: Request, node: Node)
    requires Moves(x, s, t, r, node)
    ensures Line(x, t).state.generation == if r.kind == RouteStateKind then r.generation
            else Line(x, s).state.generation
  {
    hide Line;
  }

  lemma ContentOf(env: Env, lin: Lineage, lid: nat, r: Request, node: Node)
    requires GoodRecord(env, lin, lid, r, node)
    ensures node.core.bindings == r.bindings && node.core.authority == r.authority
  {
    hide ValidateNode;
  }

  /** A successor of a newer generation is published. */
  lemma SuccessorStep(x: Scene, ops: seq<Op>, s: Store, n: Node, generation: nat, next: nat)
    returns (c: ApiCall, t: Store, n': Node)
    requires Poised(x, ops, s) && StandsAt(x, s, n, generation) && generation < next && Dated(x, s)
    ensures c == SuccessorCall(x, ops, next, n.id) && t == Step(x.env, s, PublishOp(c))
    ensures On(x, ops + [PublishOp(c)], t) && StandsAt(x, t, n', next) && Dated(x, t) && KeepsSpent(x, s, t)
    ensures n'.id !in Line(x, s).graph.nodes && LeadsOnlyTo(Line(x, t).graph, n'.id, n.id)
    ensures HoldsIn(Line(x, t).graph, n.id, Superseded) && t.marks == Marked(s).marks
    ensures Line(x, t).graph.nodes.Keys == Line(x, s).graph.nodes.Keys + {n'.id}
    ensures NewOrSucceeds(Line(x, s).graph, Line(x, t).graph, SuccessorRequest(x, ops, next, n.id), n', n.id)
  {
    hide On, Staged, Took, Prompts, Spacious, Step, Settled, GoodRecord, Repositioned, Ready, Acquired, IndexNode,
      LeadsOnlyTo;
    var node, e := SuccessorPrompts(x, ops, s, next);
    var r := SuccessorRequest(x, ops, next, n.id);
    c, t := SuccessorCall(x, ops, next, n.id), Step(x.env, s, PublishOp(SuccessorCall(x, ops, next, n.id)));
    GoesOn(x, ops, s, c, r, node, [e]);
    var s1 := TookSettled(x, s, t, r, node, [e]);
    TookMoves(x, s, t, r, node, [e]);
    TookContent(x, s, t, r, node, [e]);
    NewIsCurrent(x.env, Line(x, s), Lid(x), r, node);
    RouteStatePositions(x, s, t, r, node);
    n' := StandsAtNew(x, s, t, r, node, [e], next);
    StaysDated(x, s, t, r, node, [e]);
    TookKeepsSpent(x, s, t, r, node, [e]);
    NewestEdges(x.env, s1, Line(x, s), Lid(x), r, node, e, Marked(s1));
    CurrentSuperseded(x.env, Marked(s1), Line(x, s), r, node, e, n);
    TookRecord(x, s, t, r, node, [e], n.id);
  }

  /** The current record is corrected. */
  lemma CorrectionStep(x: Scene, ops: seq<Op>, s: Store, n: Node, generation: nat)
    returns (c: ApiCall, t: Store, n': Node)
    requires Poised(x, ops, s) && StandsAt(x, s, n, generation) && Dated(x, s)
    ensures c == CorrectionCall(x, ops, n.id) && t == Step(x.env, s, PublishOp(c))
    ensures On(x, ops + [PublishOp(c)], t) && StandsAt(x, t, n', generation) && Dated(x, t) && KeepsSpent(x, s, t)
    ensures n'.id != n.id && Spent(x, t, n.id) && t.marks == Marked(s).marks
    ensures NewOrSucceeds(Line(x, s).graph, Line(x, t).graph, CorrectionRequest(x, ops, n.id), n', n.id)
  {
    hide On, Staged, Took, Prompts, Spacious, Step, Settled, Repositioned, Ready, Acquired, IndexNode, ValidateNode;
    var node, e := CorrectionPrompts(x, ops, s, n);
    var r := CorrectionRequest(x, ops, n.id);
    c, t := CorrectionCall(x, ops, n.id), Step(x.env, s, PublishOp(CorrectionCall(x, ops, n.id)));
    GoesOn(x, ops, s, c, r, node, [e]);
    var s1 := TookSettled(x, s, t, r, node, [e]);
    TookMoves(x, s, t, r, node, [e]);
    TookContent(x, s, t, r, node, [e]);
    RouteStatePositions(x, s, t, r, node);
    n' := StandsAtNew(x, s, t, r, node, [e], generation);
    StaysDated(x, s, t, r, node, [e]);
    TookKeepsSpent(x, s, t, r, node, [e]);
    TargetCorrected(x.env, s1, Line(x, s), Lid(x), r, node, [e], Marked(s1));
    TookRecord(x, s, t, r, node, [e], n.id);
  }

  /** A binding to one generation of an upstream path. */
  function PathBound(generation: nat): Bindings {
    NO_BINDINGS.(path := Some(PathBinding(1, generation, 0)))
  }

  lemma AnnouncedIsFresh(m: Watermarks, m': Watermarks, v: nat)
    requires StageFreshness(m, PathBound(v)) == Ok && m' == m.(path := v, store := m'.store)
    ensures StageFreshness(m', PathBound(v)) == Ok
  {
  }

  /** The same graph but for stored currentness. */
  predicate OnlyReevaluated(g: Graph, h: Graph) {
    && h.nodes.Keys == g.nodes.Keys && h.edges == g.edges
    && forall id :: id in g.nodes ==> Stands(h, id, g.nodes[id])
  }

  lemma RefreshOnlyReevaluates(s: Store, ids: set<nat>, lid: nat)
    ensures OnlyReevaluated(LineageAt(s, lid).graph, Refreshed(s, ids, lid).graph)
  {
    hide Recomputed, OwnedIds, LineageAt;
  }

  /** An announcement re-evaluates; nothing else of the lineage changes. */
  ghost predicate Reannounced(x: Scene, s: Store, t: Store, v: nat) {
    && t.marks == AdvanceMarks(Marked(s).marks, PathAuthorityAdvance(v)) && t.publishers == s.publishers
    && t.indexes == s.indexes && t.lineages.Keys == s.lineages.Keys
    && Line(x, t).state == Line(x, s).state && OnlyReevaluated(Line(x, s).graph, Line(x, t).graph)
    && Line(x, t).attempts == Line(x, s).attempts
  }

  lemma AnnouncementAccepted(s: Store, w: Caller, v: nat)
    requires Serves(s, w) && s.marks.path == 0 && v != 0 && Next(s.marks.store).Some?
    ensures Notify(s, PathAuthorityAdvance(v), Signed(w, [])) ==
            OpResult(RefreshOwned(Announced(s, PathAuthorityAdvance(v)), Below(s.indexes.pathAuthority, v)), Updated)
  {
    hide RefreshOwned, Below, LivenessOf;
  }

  lemma AnnouncementLands(x: Scene, s: Store, v: nat) returns (t: Store)
    requires Serves(s, x.caller) && Lid(x) in s.lineages && s.marks.path == 0 && v != 0 && Next(s.marks.store).Some?
    ensures Notify(s, PathAuthorityAdvance(v), Signed(x.caller, [])) == OpResult(t, Updated)
    ensures Reannounced(x, s, t, v)
  {
    hide RefreshOwned, Refreshed, Below, OnlyReevaluated, LivenessOf, Notify, IsCaller;
    AnnouncementAccepted(s, x.caller, v);
    t := Notify(s, PathAuthorityAdvance(v), Signed(x.caller, [])).store;
    var s1, ids := Announced(s, PathAuthorityAdvance(v)), Below(s.indexes.pathAuthority, v);
    RefreshOwnedAt(s1, ids);
    RefreshedState(s1, ids, Lid(x));
    RefreshOnlyReevaluates(s1, ids, Lid(x));
  }

  lemma RefreshedState(s: Store, ids: set<nat>, lid: nat)
    ensures Refreshed(s, ids, lid).state == LineageAt(s, lid).state
    ensures Refreshed(s, ids, lid).attempts == LineageAt(s, lid).attempts
  {
    hide Recomputed, OwnedIds, LineageAt;
  }

  lemma YoungCovers(x: Scene, ops: seq<Op>, s: Store, v: nat)
    requires s.lineages.Keys <= {Lid(x)} && Young(x, s, ops) && x.bindings == PathBound(v)
    ensures FirstAnnouncementCovers(s, PathAuthorityAdvance(v))
  {
    hide IndexedWithin, SizeWithin;
    forall lid, id | lid in s.lineages && id in s.lineages[lid].graph.nodes
      ensures s.lineages[lid].graph.nodes[id].core.bindings == PathBound(v)
    {
      assert lid in s.lineages.Keys && BoundAt(x, s, id);
    }
  }

  lemma ReannouncedYoung(x: Scene, ops: seq<Op>, s: Store, t: Store, v: nat, op: Op)
    requires Young(x, s, ops) && Reannounced(x, s, t, v)
    ensures Young(x, t, ops + [op])
  {
    hide Line, Succeeds;
    assert |Line(x, t).graph.nodes.Keys| == |Line(x, s).graph.nodes.Keys|;
    assert |Line(x, t).graph.nodes.Keys| == |Line(x, t).graph.nodes| &&
           |Line(x, s).graph.nodes.Keys| == |Line(x, s).graph.nodes|;
    EdgeBoundGrows(|ops|, |ops| + 1);
    forall id ensures BoundAt(x, t, id) {
      assert BoundAt(x, s, id);
    }
  }

  lemma EdgeBoundGrows(k: nat, k': nat)
    requires k' == k + 1
    ensures EdgeBound(k) <= EdgeBound(k')
  {
  }

  /** The path generation everything is bound to is announced for the first time. */
  lemma AnnouncementStep(x: Scene, ops: seq<Op>, s: Store, n: Node, generation: nat, v: nat)
    returns (op: Op, t: Store, n': Node)
    requires Staged(x) && On(x, ops, s) && |ops| < 8 && StandsAt(x, s, n, generation) && Dated(x, s)
    requires s.marks.path == 0 && v != 0 && x.bindings == PathBound(v)
    ensures op == NotifyOp(PathAuthorityAdvance(v), Signed(x.caller, []))
    ensures On(x, ops + [op], t) && StandsAt(x, t, n', generation) && Dated(x, t) && KeepsSpent(x, s, t)
    ensures n'.id == n.id
  {
    hide Staged, Leads, Young, Notify, StageFreshness, FirstAnnouncementCovers, RespectsAll, LivenessOf,
      OnlyReevaluated, StandsAt, Dated, KeepsSpent, IsCaller, Step, OutcomeOf;
    NotifyIs(x.env, s, PathAuthorityAdvance(v), Signed(x.caller, []));
    op := NotifyOp(PathAuthorityAdvance(v), Signed(x.caller, []));
    StandsIn(x, s, n, generation);
    t := AnnouncementLands(x, s, v);
    YoungCovers(x, ops, s, v);
    AnnouncementRespects(x.env, s, PathAuthorityAdvance(v), Signed(x.caller, []));
    LeadsOn(x.env, ops, s, op);
    ReannouncedYoung(x, ops, s, t, v, op);
    AnnouncedIsFresh(s.marks, t.marks, v);
    n' := ReannouncedStands(x, s, t, n, generation);
  }

  lemma StandsIn(x: Scene, s: Store, n: Node, generation: nat)
    requires StandsAt(x, s, n, generation)
    ensures Lid(x) in s.lineages
  {
  }

  lemma AnnouncementRespects(env: Env, s: Store, n: Notification, a: Authority)
    requires FirstAnnouncementCovers(s, n) && Next(s.marks.store).Some?
    ensures RespectsAll(env, s, NotifyOp(n, a), EVERY_RULE)
  {
    hide FirstAnnouncementCovers, RespectsRequest, TypedCall, AllowedCompact, NoneHeldFenced, Register;
  }

  lemma ReannouncedStands(x: Scene, s: Store, t: Store, n: Node, generation: nat) returns (n': Node)
    requires Line(x, t).state == Line(x, s).state && OnlyReevaluated(Line(x, s).graph, Line(x, t).graph)
    requires t.lineages.Keys == s.lineages.Keys && StandsAt(x, s, n, generation) && Dated(x, s)
    ensures StandsAt(x, t, n', generation) && Dated(x, t) && KeepsSpent(x, s, t) && n'.id == n.id
  {
    hide Line;
    n' := Line(x, t).graph.nodes[n.id];
  }

  // ---------------------------------------------------------------------------------------
  // Compaction
  // ---------------------------------------------------------------------------------------

  /** A history record that compaction does not protect. */
  ghost predicate Unprotected(x: Scene, s: Store, options: CompactOptions, n: Node) {
    && HoldsRecord(Line(x, s).graph, n) && IsHistoryRecord(n)
    && n.id != Line(x, s).state.currentNode && n.id !in RetainedAncestry(x.env, Line(x, s), options)
  }

  /** Stored currentness being exact, history is not CURRENT, so nothing else protects it. */
  lemma UnprotectedIsCandidate(x: Scene, ops: seq<Op>, s: Store, options: CompactOptions, n: Node)
    requires Staged(x) && On(x, ops, s) && Lid(x) in s.lineages && Unprotected(x, s, options, n)
    ensures (n.core.generation, n.id) in Candidates(x.env, Line(x, s), options)
  {
    hide Leads, Sound, Placed, AllTracked, LineageSound, Standing, CountsExact, WellFormed, Compute, RetainedAncestry,
      Env.CollisionFree, CheckLineageKey, ValidateBindingFields, HasOrigin, ValidateNode, SizeWithin, IndexedWithin,
      Serves, StageFreshness, Originated;
    LeadsKeeps(x.env, ops, s);
    LineSound(x, ops, s);
    NodeIsSound(x.env, Lid(x), Line(x, s), n.id);
    CacheAgreesAt(s, Lid(x));
    assert AgreesAt(Line(x, s).state, Line(x, s).graph, s.marks, s.publishers, n.id);
    DeadIsHistorical(Line(x, s).state, n, s.marks, LivenessOf(s.publishers, PublisherOf(n)));
  }

  lemma CandidatesDated(x: Scene, s: Store, options: CompactOptions)
    requires Dated(x, s)
    ensures !StartsUndated(SortedPairs(Candidates(x.env, Line(x, s), options)))
  {
    hide Protected, IsHistoryRecord, Line;
    var keys := SortedPairs(Candidates(x.env, Line(x, s), options));
    if keys != [] {
      assert keys[0] in keys;
    }
  }

  lemma CallerMayCompact(x: Scene, ops: seq<Op>, s: Store, options: CompactOptions)
    requires Staged(x) && On(x, ops, s) && Lid(x) in s.lineages
    ensures CheckCompaction(s, Lid(x), Signed(x.caller, []))
    ensures Compact(x.env, s, Lid(x), Signed(x.caller, []), options) ==
            AfterCompaction(s, Lid(x), CompactLineage(x.env, Line(x, s), Signed(x.caller, []), options))
  {
    hide Leads, Young, LineageSound, Standing, CountsExact, WellFormed, StageFreshness, CompactLineage, AfterCompaction,
      Env.CollisionFree, CheckLineageKey, ValidateBindingFields;
    LineSound(x, ops, s);
  }

  lemma CompactAllCounts(env: Env, g: Graph, keys: seq<Pair>, budget: nat, a: Authority)
    requires keys != [] && budget > 0 && CompactAll(env, g, keys, budget, a).refused == Ok
    ensures CompactAll(env, g, keys, budget, a).count > 0
  {
    hide Tombstone, CompactNodeOutcome, CompactNode;
  }

  /** Where every record has a generation, a compaction that finds an unprotected record succeeds and
      replaces history. */
  lemma CompactionReplaces(x: Scene, ops: seq<Op>, s: Store, options: CompactOptions, n: Node)
    requires Staged(x) && On(x, ops, s) && |ops| < 8 && Lid(x) in s.lineages && Dated(x, s)
    requires Unprotected(x, s, options, n) && CompactionBudget(x.env, options) > 0
    ensures
      var a := Signed(x.caller, []);
      var done := CompactLineage(x.env, Line(x, s), a, options);
      && done.refused == Ok && done.count > 0
      && Compact(x.env, s, Lid(x), a, options).outcome == Ok
      && LineageAt(Compact(x.env, s, Lid(x), a, options).store, Lid(x)).state.compactedCount > 0
  {
    hide Leads, LineageSound, Standing, CountsExact, WellFormed, StageFreshness, CompactAll, Candidates, SortedPairs,
      Dated, Env.CollisionFree, CheckLineageKey, ValidateBindingFields, Unprotected, HistoryRecords, Compact,
      CompactionBudget, BoundAt, IndexedWithin, Serves;
    var a := Signed(x.caller, []);
    var keys := SortedPairs(Candidates(x.env, Line(x, s), options));
    LineSound(x, ops, s);
    UnprotectedIsCandidate(x, ops, s, options, n);
    assert (n.core.generation, n.id) in keys;
    CandidatesDated(x, s, options);
    CompactionBlockedExactly(x.env, Lid(x), Line(x, s), a, options);
    CompactAllCounts(x.env, Line(x, s).graph, keys, CompactionBudget(x.env, options), a);
    CallerMayCompact(x, ops, s, options);
  }

  lemma CompactionRespects(env: Env, s: Store, lid: nat, a: Authority, options: CompactOptions)
    requires Next(LineageAt(s, lid).state.lineageGeneration).Some? && Next(s.marks.store).Some?
    ensures RespectsAll(env, s, CompactOp(lid, a, options), EVERY_RULE)
  {
    hide RespectsRequest, TypedCall, FirstAnnouncementCovers, NoneHeldFenced, Register, LineageAt;  }

  // ---------------------------------------------------------------------------------------
  // A whole life
  // ---------------------------------------------------------------------------------------

  /** A registration, a root, a successor, a correction and an announcement. */
  predicate IsBeginning(ops: seq<Op>, v: nat) {
    && |ops| == 5 && ops[0].RegisterOp? && ops[1].PublishOp? && ops[1].call.PublishRoute?
    && ops[2].PublishOp? && ops[2].call.PublishRoute? && ops[3].PublishOp? && ops[3].call.Correct?
    && ops[4].NotifyOp? && ops[4].notification == PathAuthorityAdvance(v)
  }

  /** Then another successor, and a compaction. */
  predicate IsWholeLife(ops: seq<Op>, v: nat) {
    |ops| == 7 && IsBeginning(ops[..5], v) && ops[5].PublishOp? && ops[5].call.PublishRoute? && ops[6].CompactOp?
  }

  lemma PathBoundStaged(env: Env, key: LineageKey, w: Caller, v: nat)
    requires env.CollisionFree() && IsCaller(w) && CheckLineageKey(key, env.limits) == Ok && v != 0
    ensures Staged(Scene(env, key, w, PathBound(v)))
  {
    hide CheckLineageKey, Env.CollisionFree;
  }

  lemma GenerousHasRoom(limits: Limits)
    requires Generous(limits)
    ensures RoomForOne(limits) && limits.maxBatch > 0 && limits.maxDepth > 0
  {
  }

  const ONE_STEP: CompactOptions := CompactOptions(1, 0)

  /** Two steps back from the current record is outside one retained step. */
  lemma BeyondOneStep(x: Scene, s: Store, n: Node, cause: nat)
    requires Line(x, s).state.currentNode != n.id && cause != n.id && x.env.limits.maxDepth > 0
    requires LeadsOnlyTo(Line(x, s).graph, Line(x, s).state.currentNode, cause)
    ensures n.id !in RetainedAncestry(x.env, Line(x, s), ONE_STEP)
  {
    hide Line;
    var arcs, current := EdgeArcs(Line(x, s).graph), Line(x, s).state.currentNode;
    assert Ball(arcs, current, 0) == {current};
    assert Ball(arcs, current, 1) == {current} + Heads(arcs, {current});
  }

  lemma LifeBegins(x: Scene, v: nat) returns (ops: seq<Op>, s: Store, n: Node, spent: nat)
    requires Staged(x) && Generous(x.env.limits) && x.bindings == PathBound(v) && v != 0
    ensures On(x, ops, s) && StandsAt(x, s, n, 2) && Dated(x, s) && IsBeginning(ops, v)
    ensures Spent(x, s, spent) && spent != n.id
  {
    hide Staged, On, Generous, StandsAt, Dated, LeadsOnlyTo, Poised, Line, NewOrSucceeds, Step, IsBeginning,
      HoldsIn, Spent;
    GenerousHasRoom(x.env.limits);
    var c1, s1, n1 := RootStep(x, 1);
    var ops1 := Opening(x.caller) + [PublishOp(c1)];
    GenerousIsPoised(x, ops1, s1);
    var c2, s2, n2 := SuccessorStep(x, ops1, s1, n1, 1, 2);
    var ops2 := ops1 + [PublishOp(c2)];
    GenerousIsPoised(x, ops2, s2);
    var c3, s3, n3 := CorrectionStep(x, ops2, s2, n2, 2);
    var ops3 := ops2 + [PublishOp(c3)];
    var op, s4, n4 := AnnouncementStep(x, ops3, s3, n3, 2, v);
    ops, s, n, spent := ops3 + [op], s4, n4, n2.id;
    BeginningIs(x.caller, c1, c2, c3, op, v);
  }

  lemma BeginningIs(w: Caller, c1: ApiCall, c2: ApiCall, c3: ApiCall, op: Op, v: nat)
    requires c1.PublishRoute? && c2.PublishRoute? && c3.Correct? && op.NotifyOp?
    requires op.notification == PathAuthorityAdvance(v)
    ensures IsBeginning(Opening(w) + [PublishOp(c1)] + [PublishOp(c2)] + [PublishOp(c3)] + [op], v)
  {
  }

  lemma SpentIsCompacted(x: Scene, ops: seq<Op>, s: Store, n: Node, cause: nat, spent: nat) returns (t: Store)
    requires Staged(x) && On(x, ops, s) && |ops| < 8 && StandsAt(x, s, n, 3) && Dated(x, s)
    requires x.env.limits.maxDepth > 0 && x.env.limits.maxBatch > 0
    requires Spent(x, s, spent) && spent != cause && LeadsOnlyTo(Line(x, s).graph, n.id, cause)
    ensures Leads(x.env, ops + [CompactOp(Lid(x), Signed(x.caller, []), ONE_STEP)], t)
    ensures LineageAt(t, Lid(x)).state.compactedCount > 0
  {
    hide Staged, On, Dated, LeadsOnlyTo, Leads, Unprotected, Compact, CompactLineage, Spent, Line, Lid;
    var d := SpentRecord(x, ops, s, n, cause, spent);
    CompactionReplaces(x, ops, s, ONE_STEP, d);
    t := CompactionLeads(x, ops, s, ONE_STEP);
  }

  lemma LifeEnds(x: Scene, v: nat, ops: seq<Op>, s: Store, n: Node, spent: nat) returns (ops': seq<Op>, t: Store)
    requires Staged(x) && Generous(x.env.limits) && On(x, ops, s) && StandsAt(x, s, n, 2) && Dated(x, s)
    requires IsBeginning(ops, v) && Spent(x, s, spent) && spent != n.id
    ensures IsWholeLife(ops', v) && Leads(x.env, ops', t) && LineageAt(t, Lid(x)).state.compactedCount > 0
  {
    hide Staged, On, Generous, Dated, Poised, Step, LeadsOnlyTo, Leads, StandsAt, Spent, Line, Lid, HoldsIn, LineageAt;
    GenerousHasRoom(x.env.limits);
    GenerousIsPoised(x, ops, s);
    var c, s1, n1 := SuccessorStep(x, ops, s, n, 2, 3);
    assert Spent(x, s1, spent);
    t := SpentIsCompacted(x, ops + [PublishOp(c)], s1, n1, n.id, spent);
    ops' := ops + [PublishOp(c)] + [CompactOp(Lid(x), Signed(x.caller, []), ONE_STEP)];
    assert ops'[..5] == ops;
  }

  lemma SpentRecord(x: Scene, ops: seq<Op>, s: Store, n: Node, cause: nat, spent: nat) returns (d: Node)
    requires Staged(x) && On(x, ops, s) && StandsAt(x, s, n, 3) && x.env.limits.maxDepth > 0
    requires Spent(x, s, spent) && spent != cause && LeadsOnlyTo(Line(x, s).graph, n.id, cause)
    ensures Unprotected(x, s, ONE_STEP, d)
  {
    hide On, Staged, LeadsOnlyTo, RetainedAncestry, Line, LineageSound, Standing, CountsExact, HasOrigin, ValidateNode;
    LineSound(x, ops, s);
    d := Line(x, s).graph.nodes[spent];
    NodeIsSound(x.env, Lid(x), Line(x, s), spent);
    BeyondOneStep(x, s, d, cause);
  }

  /** A compaction that succeeds leads on. */
  lemma CompactionLeads(x: Scene, ops: seq<Op>, s: Store, options: CompactOptions) returns (t: Store)
    requires On(x, ops, s) && |ops| < 8 && Lid(x) in s.lineages
    requires Compact(x.env, s, Lid(x), Signed(x.caller, []), options).outcome == Ok
    ensures Leads(x.env, ops + [CompactOp(Lid(x), Signed(x.caller, []), options)], t)
    ensures t == Compact(x.env, s, Lid(x), Signed(x.caller, []), options).store
  {
    hide Leads, RespectsAll, Compact, Serves, BoundAt, IndexedWithin, StageFreshness, EdgeBound, Step, OutcomeOf;
    CompactIs(x.env, s, Lid(x), Signed(x.caller, []), options);
    CompactionRespects(x.env, s, Lid(x), Signed(x.caller, []), options);
    LeadsOn(x.env, ops, s, CompactOp(Lid(x), Signed(x.caller, []), options));
    t := Compact(x.env, s, Lid(x), Signed(x.caller, []), options).store;
  }

  /** A whole life. A publisher registers, publishes a root and a successor bound to a generation of
      an upstream path, corrects the successor, announces that path generation, publishes another
      successor, and compacts keeping one step of ancestry. Every operation is accepted, the
      compaction replaces history, and every assumption the theorems about runs make holds. */
  lemma FullLife(env: Env, key: LineageKey, w: Caller, v: nat) returns (ops: seq<Op>, s: Store)
    requires env.CollisionFree() && Generous(env.limits) && IsCaller(w) && CheckLineageKey(key, env.limits) == Ok
    requires v != 0
    ensures IsWholeLife(ops, v) && Leads(env, ops, s) && LineageAt(s, env.lineageIdOf(key)).state.compactedCount > 0
  {
    hide Leads, On, Generous, Env.CollisionFree, IsCaller, CheckLineageKey, Staged, StandsAt, Dated, IsBeginning,
      IsWholeLife, Line, LineageAt;
    var x := Scene(env, key, w, PathBound(v));
    PathBoundStaged(env, key, w, v);
    var ops0, s0, n, spent := LifeBegins(x, v);
    ops, s := LifeEnds(x, v, ops0, s0, n, spent);
  }
}
