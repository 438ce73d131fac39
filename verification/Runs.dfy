// Whole runs of callers that keep to what the store does not check: every reached store keeps the
// structural invariant, and its stored currentness is exact when the callers also respect the cache.
module Runs {
  import opened Types
  import opened Ordering
  import opened Digraph
  import opened GraphModel
  import opened StoreTypes
  import opened CurrentnessModel
  import opened Requests
  import opened CommitPipeline
  import opened Operations
  import opened Soundness
  import opened Admission
  import opened Insertions
  import opened Evolution
  import opened Rebinding
  import opened Settlement
  import opened Transition
  import opened LineageSteps
  import opened CommitSteps
  import opened CommitCache
  import opened CommitInvariants
  import opened RegistrySteps
  import opened CompactSteps
  import opened Progress

  // ---------------------------------------------------------------------------------------
  // Run assumptions
  // ---------------------------------------------------------------------------------------

  /** What callers have to respect because the store does not check it. */
  datatype Rule =
    | Fits            // batches point one way and fit, and generations are not exhausted
    | OwnRoute        // distinct lineages have distinct routes
    | CorrectsFirst   // nothing is corrected that a correction has replaced
    | CacheSafe       // stored currentness stays exact: announced bindings, no boot held fenced

  /** The generations a compaction advances are not exhausted. */
  ghost predicate AllowedCompact(s: Store, lid: nat) {
    Next(LineageAt(s, lid).state.lineageGeneration).Some? && Next(s.marks.store).Some?
  }

  predicate TypedCall(op: Op) {
    match op
    case PublishOp(c) => WellTyped(c)
    case SessionOp(_, c) => WellTyped(c)
    case _ => true
  }

  ghost predicate RespectsCommit(env: Env, s: Store, r: Request, rule: Rule) {
    match rule
    case Fits => AllowedCommit(env, s, r)
    case OwnRoute => RouteIsOwn(env, s, r)
    case CorrectsFirst => CorrectsOnce(env, s, r)
    case CacheSafe => AnnouncedCommit(env, s, r)
  }

  ghost predicate RespectsRequest(env: Env, s: Store, op: Op, rule: Rule) {
    match RequestOf(env, op)
    case Some(r) => RespectsCommit(env, s, r, rule)
    case None => true
  }

  /** One operation respects one rule. */
  ghost predicate Respects(env: Env, s: Store, op: Op, rule: Rule) {
    match op
    case RegisterOp(p, b, e, scope) =>
      rule == CacheSafe && Register(env, s, p, b, e, scope).outcome == Ok ==> NoneHeldFenced(s, (p, b))
    case FenceOp(_, _, _) => true
    case NotifyOp(n, _) =>
      (rule == Fits ==> Next(s.marks.store).Some?) && (rule == CacheSafe ==> FirstAnnouncementCovers(s, n))
    case CompactOp(lid, _, _) => rule == Fits ==> AllowedCompact(s, lid)
    case _ => (rule == Fits ==> TypedCall(op)) && RespectsRequest(env, s, op, rule)
  }

  ghost predicate RespectsAll(env: Env, s: Store, op: Op, rules: set<Rule>) {
    forall rule :: rule in rules ==> Respects(env, s, op, rule)
  }

  /** Every operation of the run respects these rules. */
  ghost predicate Obeys(env: Env, s: Store, ops: seq<Op>, rules: set<Rule>)
    decreases |ops|
  {
    hide Step, Respects;
    ops == [] || (RespectsAll(env, s, ops[0], rules) && Obeys(env, Step(env, s, ops[0]), ops[1..], rules))
  }

  lemma {:induction false} ObeysFewer(env: Env, s: Store, ops: seq<Op>, rules: set<Rule>, fewer: set<Rule>)
    requires Obeys(env, s, ops, rules) && fewer <= rules
    ensures Obeys(env, s, ops, fewer)
    decreases |ops|
  {
    hide Step, Respects;
    if ops != [] {
      ObeysFewer(env, Step(env, s, ops[0]), ops[1..], rules, fewer);
    }
  }

  // ---------------------------------------------------------------------------------------
  // The structural invariant
  // ---------------------------------------------------------------------------------------

  /** A publication that fits commits a request in normal form that fits, or changes nothing. */
  ghost predicate CommitsFitting(env: Env, s: Store, op: Op, rules: set<Rule>) {
    Step(env, s, op) == s ||
    match RequestOf(env, op)
    case None => false
    case Some(r) =>
      && Step(env, s, op) == Commit(env, s, r).store && NormalForm(r)
      && forall rule :: rule in rules ==> RespectsCommit(env, s, r, rule)
  }

  lemma PublicationFits(env: Env, s: Store, op: Op, rules: set<Rule>)
    requires op.PublishOp? || op.SessionOp?
    requires RespectsAll(env, s, op, rules) && Fits in rules
    ensures CommitsFitting(env, s, op, rules)
  {
    hide Commit, Normalize, CheckSession, RespectsCommit, NormalForm, WellTyped, Step;
    PublicationCommits(env, s, op);
    assert Respects(env, s, op, Fits);
    var c := op.call;
    NormalizeGivesNormalForm(c, env.limits);
    forall rule | rule in rules ensures RespectsRequest(env, s, op, rule) {
      assert Respects(env, s, op, rule);
    }
  }

  lemma StepKeepsSound(env: Env, s: Store, op: Op)
    requires env.CollisionFree() && Sound(env, s) && RespectsAll(env, s, op, {Fits})
    ensures Sound(env, Step(env, s, op))
  {
    hide Sound, Env.CollisionFree, Register, Fence, Notify, Publish, PublishSession, Commit, Compact, RespectsAll,
      AllowedCommit, NormalForm, Placed, RoutesDistinct, RequestOf;
    match op {
      case RegisterOp(p, b, e, scope) => RegisterKeepsStructure(env, s, p, b, e, scope);
      case FenceOp(p, b, a) => FenceKeepsStructure(env, s, p, b, a);
      case NotifyOp(n, a) => NotifyKeepsStructure(env, s, n, a);
      case CompactOp(lid, a, options) => CompactKeepsSound(env, s, lid, a, options);
      case _ =>
        PublicationFits(env, s, op, {Fits});
        if Step(env, s, op) != s {
          var r := RequestOf(env, op).value;
          assert RespectsCommit(env, s, r, Fits);
          CommitKeepsSound(env, s, r);
        }
    }
  }

  lemma {:induction false} RunKeepsSound(env: Env, s: Store, ops: seq<Op>)
    requires env.CollisionFree() && Sound(env, s) && Obeys(env, s, ops, {Fits})
    ensures Sound(env, Run(env, s, ops))
    decreases |ops|
  {
    hide Sound, Env.CollisionFree, RespectsAll, Step;
    if ops != [] {
      StepKeepsSound(env, s, ops[0]);
      RunKeepsSound(env, Step(env, s, ops[0]), ops[1..]);
    }
  }

  lemma ReachedSound(env: Env, ops: seq<Op>)
    requires env.CollisionFree() && Obeys(env, EMPTY_STORE, ops, {Fits})
    ensures Sound(env, Run(env, EMPTY_STORE, ops))
  {
    hide Sound, Env.CollisionFree, Run, Obeys, Placed, CacheAgrees, AllTracked;
    EmptyIsSound(env, EMPTY_STORE);
    RunKeepsSound(env, EMPTY_STORE, ops);
  }

  /** Structural soundness of every lineage a run reaches. */
  lemma ReachedLineageSound(env: Env, ops: seq<Op>, lid: nat)
    requires env.CollisionFree() && Obeys(env, EMPTY_STORE, ops, {Fits})
    requires lid in Run(env, EMPTY_STORE, ops).lineages
    ensures LineageSound(env, lid, LineageAt(Run(env, EMPTY_STORE, ops), lid))
  {
    hide LineageSound, Env.CollisionFree, Run, Obeys, Sound;
    ReachedSound(env, ops);
    SoundLineage(env, Run(env, EMPTY_STORE, ops), lid);
  }

  // ---------------------------------------------------------------------------------------
  // One lineage for a route, one live route state for a lineage
  // ---------------------------------------------------------------------------------------

  lemma StepKeepsRoutes(env: Env, s: Store, op: Op)
    requires env.CollisionFree() && Sound(env, s) && RoutesDistinct(s) && RespectsAll(env, s, op, {Fits, OwnRoute})
    ensures RoutesDistinct(Step(env, s, op))
  {
    hide Sound, Env.CollisionFree, Register, Fence, Notify, Publish, PublishSession, Commit, Compact, RespectsAll,
      AllowedCommit, NormalForm, Placed, RoutesDistinct, RouteIsOwn, RequestOf;
    match op {
      case RegisterOp(p, b, e, scope) => RegisterKeepsStructure(env, s, p, b, e, scope);
      case FenceOp(p, b, a) => FenceKeepsStructure(env, s, p, b, a);
      case NotifyOp(n, a) => NotifyKeepsStructure(env, s, n, a);
      case CompactOp(lid, a, options) => CompactKeepsPlaced(env, s, lid, a, options);
      case _ =>
        PublicationFits(env, s, op, {Fits, OwnRoute});
        if Step(env, s, op) != s {
          var r := RequestOf(env, op).value;
          assert RespectsCommit(env, s, r, Fits) && RespectsCommit(env, s, r, OwnRoute);
          CommitKeepsRoutes(env, s, r);
        }
    }
  }

  lemma {:induction false} RunKeepsRoutes(env: Env, s: Store, ops: seq<Op>)
    requires env.CollisionFree() && Sound(env, s) && RoutesDistinct(s) && Obeys(env, s, ops, {Fits, OwnRoute})
    ensures RoutesDistinct(Run(env, s, ops))
    decreases |ops|
  {
    hide Sound, Env.CollisionFree, Respects, Step, RoutesDistinct;
    if ops != [] {
      StepKeepsRoutes(env, s, ops[0]);
      StepKeepsSound(env, s, ops[0]);
      RunKeepsRoutes(env, Step(env, s, ops[0]), ops[1..]);
    }
  }

  lemma StepKeepsPlaced(env: Env, s: Store, op: Op)
    requires env.CollisionFree() && Sound(env, s) && Placed(s)
    requires RespectsAll(env, s, op, {Fits, OwnRoute, CorrectsFirst})
    ensures Placed(Step(env, s, op))
  {
    hide Sound, Env.CollisionFree, Register, Fence, Notify, Publish, PublishSession, Commit, Compact, RespectsAll,
      AllowedCommit, NormalForm, Placed, RoutesDistinct, RouteIsOwn, CorrectsOnce, RequestOf;
    var rules := {Fits, OwnRoute, CorrectsFirst};
    match op {
      case RegisterOp(p, b, e, scope) => RegisterKeepsStructure(env, s, p, b, e, scope);
      case FenceOp(p, b, a) => FenceKeepsStructure(env, s, p, b, a);
      case NotifyOp(n, a) => NotifyKeepsStructure(env, s, n, a);
      case CompactOp(lid, a, options) => CompactKeepsPlaced(env, s, lid, a, options);
      case _ =>
        PublicationFits(env, s, op, rules);
        if Step(env, s, op) != s {
          var r := RequestOf(env, op).value;
          assert forall rule :: rule in rules ==> RespectsCommit(env, s, r, rule);
          assert RespectsCommit(env, s, r, Fits) && RespectsCommit(env, s, r, OwnRoute) &&
                 RespectsCommit(env, s, r, CorrectsFirst);
          CommitKeepsPlaced(env, s, r);
        }
    }
  }

  lemma {:induction false} RunKeepsPlaced(env: Env, s: Store, ops: seq<Op>)
    requires env.CollisionFree() && Sound(env, s) && Placed(s)
    requires Obeys(env, s, ops, {Fits, OwnRoute, CorrectsFirst})
    ensures Placed(Run(env, s, ops))
    decreases |ops|
  {
    hide Sound, Env.CollisionFree, Respects, Step, Placed;
    if ops != [] {
      StepKeepsPlaced(env, s, ops[0]);
      StepKeepsSound(env, s, ops[0]);
      RunKeepsPlaced(env, Step(env, s, ops[0]), ops[1..]);
    }
  }

  /** No route state is newer than the lineage's generation, the current record is at it, and it is
      the only one at it whose lifecycle is still live. */
  predicate OneLiveRouteState(lin: Lineage) {
    var st, g := lin.state, lin.graph;
    && (forall id :: id in g.nodes && g.nodes[id].IsRouteState() ==>
          && g.nodes[id].core.generation <= st.generation
          && (g.nodes[id].core.generation == st.generation && IsLive(g.nodes[id].lifecycle) ==> id == st.currentNode))
    && (st.generation != 0 ==>
          && st.currentNode in g.nodes && g.nodes[st.currentNode].IsRouteState()
          && g.nodes[st.currentNode].core.generation == st.generation)
  }

  lemma StandingIsOneLive(lin: Lineage)
    requires Standing(lin) && WellFormed(lin.graph)
    ensures OneLiveRouteState(lin)
  {
    forall id | id in lin.graph.nodes
      ensures RouteStateWithin(lin.state, lin.graph.nodes[id]) && Displaced(lin.state, lin.graph.nodes[id])
    {
    }
  }

  /** Single live route state, in every lineage that a run reaches. */
  lemma SingleLiveRouteState(env: Env, ops: seq<Op>, lid: nat)
    requires env.CollisionFree() && Obeys(env, EMPTY_STORE, ops, {Fits, OwnRoute, CorrectsFirst})
    requires lid in Run(env, EMPTY_STORE, ops).lineages
    ensures OneLiveRouteState(LineageAt(Run(env, EMPTY_STORE, ops), lid))
  {
    hide Sound, LineageSound, Env.CollisionFree, Run, Obeys, Placed, Standing, OneLiveRouteState, CacheAgrees,
      AllTracked;
    var s := Run(env, EMPTY_STORE, ops);
    ObeysFewer(env, EMPTY_STORE, ops, {Fits, OwnRoute, CorrectsFirst}, {Fits});
    EmptyIsSound(env, EMPTY_STORE);
    RunKeepsPlaced(env, EMPTY_STORE, ops);
    ReachedLineageSound(env, ops, lid);
    SoundIsWellFormed(env, lid, LineageAt(s, lid));
    PlacedLineage(s, lid);
    StandingIsOneLive(LineageAt(s, lid));
  }

  /** Two route states of a lineage that compute to CURRENT, each under some liveness. */
  predicate BothCurrent(lin: Lineage, a: nat, b: nat, m: Watermarks, la: Liveness, lb: Liveness) {
    && a in lin.graph.nodes && b in lin.graph.nodes
    && lin.graph.nodes[a].IsRouteState() && lin.graph.nodes[b].IsRouteState()
    && Compute(lin.state, lin.graph.nodes[a], m, la) == IsCurrent
    && Compute(lin.state, lin.graph.nodes[b], m, lb) == IsCurrent
  }

  /** At most one route state computes to CURRENT, whatever the watermarks and the registry. */
  lemma SingleCurrent(env: Env, ops: seq<Op>, lid: nat, a: nat, b: nat, m: Watermarks, la: Liveness, lb: Liveness)
    requires env.CollisionFree() && Obeys(env, EMPTY_STORE, ops, {Fits, OwnRoute, CorrectsFirst})
    requires lid in Run(env, EMPTY_STORE, ops).lineages
    requires BothCurrent(LineageAt(Run(env, EMPTY_STORE, ops), lid), a, b, m, la, lb)
    ensures a == b
  {
    hide Env.CollisionFree, Run, Obeys, Compute, LineageAt;
    var lin := LineageAt(Run(env, EMPTY_STORE, ops), lid);
    SingleLiveRouteState(env, ops, lid);
    CurrentIsLiveAtGeneration(lin.state, lin.graph.nodes[a], m, la);
    CurrentIsLiveAtGeneration(lin.state, lin.graph.nodes[b], m, lb);
  }

  lemma CurrentIsLiveAtGeneration(st: LineageState, n: Node, m: Watermarks, l: Liveness)
    requires n.IsRouteState() && Compute(st, n, m, l) == IsCurrent
    ensures IsLive(n.lifecycle) && n.core.generation == st.generation
  {
  }

  // ---------------------------------------------------------------------------------------
  // The cache
  // ---------------------------------------------------------------------------------------

  const EVERY_RULE: set<Rule> := {Fits, OwnRoute, CorrectsFirst, CacheSafe}

  lemma StepKeepsInvariant(env: Env, s: Store, op: Op)
    requires env.CollisionFree() && Invariant(env, s) && RespectsAll(env, s, op, EVERY_RULE)
    ensures Invariant(env, Step(env, s, op))
  {
    hide Invariant, Env.CollisionFree, Register, Fence, Notify, Publish, PublishSession, Commit, Compact, AllowedCommit,
      AnnouncedCommit, RouteIsOwn, CorrectsOnce, NormalForm, NoneHeldFenced, FirstAnnouncementCovers, RequestOf;
    assert Respects(env, s, op, Fits) && Respects(env, s, op, CacheSafe);
    match op {
      case RegisterOp(p, b, e, scope) => RegisterKeepsInvariant(env, s, p, b, e, scope);
      case FenceOp(p, b, a) => FenceKeepsInvariant(env, s, p, b, a);
      case NotifyOp(n, a) => NotifyKeepsInvariant(env, s, n, a);
      case CompactOp(lid, a, options) => CompactKeepsInvariant(env, s, lid, a, options);
      case _ =>
        PublicationFits(env, s, op, EVERY_RULE);
        if Step(env, s, op) != s {
          var r := RequestOf(env, op).value;
          assert RespectsCommit(env, s, r, Fits) && RespectsCommit(env, s, r, OwnRoute);
          assert RespectsCommit(env, s, r, CorrectsFirst) && RespectsCommit(env, s, r, CacheSafe);
          CommitKeepsInvariant(env, s, r);
        }
    }
  }

  lemma {:induction false} RunKeepsInvariant(env: Env, s: Store, ops: seq<Op>)
    requires env.CollisionFree() && Invariant(env, s) && Obeys(env, s, ops, EVERY_RULE)
    ensures Invariant(env, Run(env, s, ops))
    decreases |ops|
  {
    hide Invariant, Env.CollisionFree, RespectsAll, Step;
    if ops != [] {
      StepKeepsInvariant(env, s, ops[0]);
      RunKeepsInvariant(env, Step(env, s, ops[0]), ops[1..]);
    }
  }

  lemma ReachedInvariant(env: Env, ops: seq<Op>)
    requires env.CollisionFree() && Obeys(env, EMPTY_STORE, ops, EVERY_RULE)
    ensures Invariant(env, Run(env, EMPTY_STORE, ops))
  {
    hide Sound, Placed, CacheAgrees, AllTracked, Env.CollisionFree, Run, Obeys;
    EmptyIsSound(env, EMPTY_STORE);
    RunKeepsInvariant(env, EMPTY_STORE, ops);
  }

  /** The stored currentness of every record is what recomputation gives on the present lineage
      state, watermarks and registry, unless the lineage is retired. */
  predicate CacheExact(s: Store, lin: Lineage) {
    lin.state.lifecycle != RetiredLineage ==>
      forall id :: id in lin.graph.nodes ==>
        var n := lin.graph.nodes[id];
        n.currentness == Compute(lin.state, n, s.marks, LivenessOf(s.publishers, PublisherOf(n)))
  }

  /** Cache agreement, in every store that a run reaches from the empty one. */
  lemma CacheAgreement(env: Env, ops: seq<Op>, lid: nat)
    requires env.CollisionFree() && Obeys(env, EMPTY_STORE, ops, EVERY_RULE)
    requires lid in Run(env, EMPTY_STORE, ops).lineages
    ensures CacheExact(Run(env, EMPTY_STORE, ops), LineageAt(Run(env, EMPTY_STORE, ops), lid))
  {
    hide Sound, Placed, AllTracked, Env.CollisionFree, Run, Obeys, Compute, LivenessOf;
    ReachedInvariant(env, ops);
    var s := Run(env, EMPTY_STORE, ops);
    CacheAgreesAt(s, lid);
    assert forall id :: id in LineageAt(s, lid).graph.nodes && LineageAt(s, lid).state.lifecycle != RetiredLineage ==>
        Agrees(LineageAt(s, lid).state, LineageAt(s, lid).graph.nodes[id], s.marks, s.publishers);
  }

  // ---------------------------------------------------------------------------------------
  // What no compaction takes
  // ---------------------------------------------------------------------------------------

  /** Where a traversal may visit and return as many records as a lineage may hold, no compaction of a
      reached store ever replaces a record within the retained depth, whoever the callers are. (Where
      it may not, some compaction does: OverflowRun.) */
  lemma ReachedAncestryIsKept(env: Env, ops: seq<Op>, lid: nat, a: Authority, options: CompactOptions, id: nat)
    requires env.limits.maxNodes <= env.limits.maxResults && env.limits.maxNodes <= env.limits.maxVisited
    requires lid in Run(env, EMPTY_STORE, ops).lineages
    requires id in AncestryOf(env.limits, LineageAt(Run(env, EMPTY_STORE, ops), lid), options)
    ensures
      var s := Run(env, EMPTY_STORE, ops);
      Unchanged(LineageAt(s, lid).graph, LineageAt(Compact(env, s, lid, a, options).store, lid).graph, id)
  {
    hide Run, Compact, AncestryOf, Unchanged, WellFormed, LedgerFits;
    ReachedWithin(env, ops);
    AncestryIsKept(env, Run(env, EMPTY_STORE, ops), lid, a, options, id);
  }
}
