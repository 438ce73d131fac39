// A whole commit on a sound store: which of its three results it has, and why the store stays
// sound.
module CommitSteps {
  import opened Types
  import opened Ordering
  import opened Digraph
  import opened GraphModel
  import opened StoreTypes
  import opened CurrentnessModel
  import opened Requests
  import opened CommitPipeline
  import opened Soundness
  import opened Admission
  import opened Insertions
  import opened Evolution
  import opened Rebinding
  import opened Settlement
  import opened Transition
  import opened LineageSteps

  // ---------------------------------------------------------------------------------------
  // What the store assumes of its callers and does not check
  // ---------------------------------------------------------------------------------------

  /** The store with the request's lineage in it. */
  function Acquired(env: Env, s: Store, r: Request): (s1: Store)
    ensures env.lineageIdOf(r.key) in s1.lineages
  {
    var lid := env.lineageIdOf(r.key);
    if lid in s.lineages then s
    else s.(lineages := s.lineages[lid := NewLineage(lid, r.key)],
            routeIndex := s.routeIndex[r.key.route := lid])
  }

  function LineageFor(env: Env, s: Store, r: Request): Lineage {
    LineageAt(Acquired(env, s, r), env.lineageIdOf(r.key))
  }

  ghost function Decision(env: Env, s: Store, r: Request): (v: Verdict)
    ensures v.Proceed? && r.kind == LinkKind ==> |v.edges| == 1
  {
    Admit(env, Acquired(env, s, r), LineageFor(env, s, r), env.lineageIdOf(r.key), r)
  }

  /** What keeps the structure of the store: room for the batch, and generations that are not
      exhausted. */
  ghost predicate AllowedCommit(env: Env, s: Store, r: Request) {
    match Decision(env, s, r)
    case Proceed(node, edges) =>
      && BatchFits(env, LineageFor(env, s, r), r, node, edges)
      && Next(s.marks.store).Some? && Next(LineageFor(env, s, r).state.lineageGeneration).Some?
    case _ => true
  }

  /** Distinct lineages have distinct routes. */
  ghost predicate RouteIsOwn(env: Env, s: Store, r: Request) {
    forall lid :: lid in s.lineages && s.lineages[lid].state.key.route == r.key.route ==>
      lid == env.lineageIdOf(r.key)
  }

  /** No correction of what a correction has replaced. */
  ghost predicate CorrectsOnce(env: Env, s: Store, r: Request) {
    Decision(env, s, r).Proceed? ==> NotAlreadyReplaced(LineageFor(env, s, r), r)
  }

  // ---------------------------------------------------------------------------------------
  // The three results
  // ---------------------------------------------------------------------------------------

  /** The caller is authorised, the lineage exists or can be created, and stages 7 to 13 pass. */
  ghost predicate Proceeds(env: Env, s: Store, r: Request) {
    && Authorize(env, s, r) == Ok
    && Acquire(env, s, env.lineageIdOf(r.key), r.key).Some?
    && Decision(env, s, r).Proceed?
  }

  /** The store after stage 14. */
  ghost function Applied(env: Env, s: Store, lid: nat, r: Request, node: Node, edges: seq<Edge>): Store {
    WithLineage(Marked(s), lid, Settled(env, Marked(s), LineageAt(s, lid), r, node, edges)).(
      indexes := if r.kind == LinkKind then s.indexes else IndexNode(s.indexes, node, lid))
  }

  ghost function Committed(env: Env, s: Store, r: Request): Store {
    match Decision(env, s, r)
    case Proceed(node, edges) => Applied(env, Acquired(env, s, r), env.lineageIdOf(r.key), r, node, edges)
    case _ => s
  }

  predicate AppliedWhole(c: CommitResult, r: Request, t: Store) {
    c.store == t && c.outcome == ReportedOutcome(r) && c.publication.Some?
  }

  lemma ApplyIsApplied(env: Env, s: Store, lid: nat, r: Request, node: Node, edges: seq<Edge>)
    requires Ready(env, s, LineageAt(s, lid), lid, r, node, edges)
    requires Next(s.marks.store).Some? && Next(LineageAt(s, lid).state.lineageGeneration).Some?
    ensures AppliedWhole(Apply(env, s, lid, r, node, edges), r, Applied(env, s, lid, r, node, edges))
  {
    hide Ready, Settle, InsertBatch, Inserted, IndexNode, Hub, IsDag, ReportedEdges, LineageAt, PublicationOf;
    BatchInserted(env, s, LineageAt(s, lid), lid, r, node, edges);
  }

  lemma AcquiredSound(env: Env, s: Store, r: Request)
    requires Sound(env, s) && NormalForm(r) && s.marks.epoch != 0
    ensures Sound(env, Acquired(env, s, r))
  {
    hide LineageSound, NormalForm;
    RequestRoute(r);
    NewLineageSound(env, env.lineageIdOf(r.key), r.key);
  }

  lemma AcquiredPlaced(env: Env, s: Store, r: Request)
    requires Placed(s) && RouteIsOwn(env, s, r)
    ensures Placed(Acquired(env, s, r))
  {
    hide Standing;
    var lid, s1 := env.lineageIdOf(r.key), Acquired(env, s, r);
    assert lid !in s.lineages ==> Standing(NewLineage(lid, r.key)) by {
      NewLineageStands(lid, r.key);
    }
    forall l | l in s1.lineages ensures LineagePlaced(s1, s1.lineages[l]) {
      assert l in s.lineages ==> LineagePlaced(s, s.lineages[l]);
    }
  }

  lemma NewLineageStands(lid: nat, key: LineageKey)
    ensures Standing(NewLineage(lid, key))
  {
  }

  lemma RequestRoute(r: Request)
    requires NormalForm(r)
    ensures r.key.route != 0
  {
  }

  lemma NewLineageSound(env: Env, lid: nat, key: LineageKey)
    requires lid == env.lineageIdOf(key) && key.route != 0
    ensures LineageSound(env, lid, NewLineage(lid, key))
  {
    assert HistoryRecords(EMPTY_GRAPH) == {};
  }

  lemma SoundLineage(env: Env, s: Store, lid: nat)
    requires Sound(env, s) && lid in s.lineages
    ensures LineageSound(env, lid, LineageAt(s, lid))
  {
    hide LineageSound;
  }

  lemma PlacedLineage(s: Store, lid: nat)
    requires Placed(s) && lid in s.lineages
    ensures LineagePlaced(s, LineageAt(s, lid)) && Standing(LineageAt(s, lid))
  {
    hide Standing, GenerationIndexed;
  }

  /** What a commit that proceeds finds. */
  ghost predicate Prepared(env: Env, s: Store, r: Request, node: Node, edges: seq<Edge>) {
    && Decision(env, s, r) == Proceed(node, edges) && Sound(env, Acquired(env, s, r)) && r.authority.HasIdentity()
    && Ready(env, Acquired(env, s, r), LineageFor(env, s, r), env.lineageIdOf(r.key), r, node, edges)
  }

  lemma FittingIsPrepared(env: Env, s: Store, r: Request, node: Node, edges: seq<Edge>)
    requires env.CollisionFree() && Sound(env, s) && NormalForm(r) && Proceeds(env, s, r)
    requires Decision(env, s, r) == Proceed(node, edges) && BatchFits(env, LineageFor(env, s, r), r, node, edges)
    ensures Prepared(env, s, r, node, edges)
  {
    hide Sound, LineageSound, NormalForm, Admit, Admitted, BatchFits, Env.CollisionFree, LineageAt;
    var s1, lid := Acquired(env, s, r), env.lineageIdOf(r.key);
    AcquiredSound(env, s, r);
    SoundLineage(env, s1, lid);
    AdmitGivesAdmitted(env, s1, LineageAt(s1, lid), lid, r);
  }

  lemma ProceedsIsPrepared(env: Env, s: Store, r: Request) returns (node: Node, edges: seq<Edge>)
    requires env.CollisionFree() && Sound(env, s) && NormalForm(r) && AllowedCommit(env, s, r) && Proceeds(env, s, r)
    ensures Prepared(env, s, r, node, edges)
    ensures Next(s.marks.store).Some? && Next(LineageFor(env, s, r).state.lineageGeneration).Some?
  {
    hide Sound, NormalForm, Decision, BatchFits, Env.CollisionFree, Prepared, LineageFor, Next, Acquire, Authorize;
    node, edges := Decision(env, s, r).node, Decision(env, s, r).edges;
    FittingIsPrepared(env, s, r, node, edges);
  }

  /** A commit that is stopped before stage 14, in whatever store and for whatever caller, changes
      nothing but, at most, to create its lineage empty. One that is not stopped there is applied
      whole when the store is sound and the batch fits. */
  lemma CommitCases(env: Env, s: Store, r: Request)
    ensures
      var c := Commit(env, s, r);
      !Proceeds(env, s, r) ==> c.store == s || (c.store == Acquired(env, s, r) && s.marks.epoch != 0)
    ensures Proceeds(env, s, r) && env.CollisionFree() && Sound(env, s) && NormalForm(r) && AllowedCommit(env, s, r) ==>
              AppliedWhole(Commit(env, s, r), r, Committed(env, s, r))
  {
    hide Sound, NormalForm, AllowedCommit, Admit, Apply, Applied, Ready, Env.CollisionFree, AppliedWhole;
    if Proceeds(env, s, r) && env.CollisionFree() && Sound(env, s) && NormalForm(r) && AllowedCommit(env, s, r) {
      var node, edges := ProceedsIsPrepared(env, s, r);
      ApplyIsApplied(env, Acquired(env, s, r), env.lineageIdOf(r.key), r, node, edges);
    }
  }

  // ---------------------------------------------------------------------------------------
  // The store stays sound
  // ---------------------------------------------------------------------------------------

  /** The owner and the generation index with a new record. */
  predicate IndexedAs(x: Indexes, x': Indexes, n: Node, lid: nat) {
    && x'.owner == x.owner[n.id := lid]
    && x'.generation == if n.IsRouteState() then x.generation[(n.core.route, n.core.generation) := n.id]
       else x.generation
  }

  lemma IndexedNode(x: Indexes, n: Node, lid: nat)
    ensures IndexedAs(x, IndexNode(x, n, lid), n, lid)
  {
    hide IndexAdd;
  }

  /** A record of one lineage is in no other: its identity fixes its lineage. */
  lemma RecordsDisjoint(env: Env, a: nat, lin: Lineage, core: NodeCore)
    requires env.CollisionFree() && LineageSound(env, a, lin)
    ensures env.NodeId(core) in lin.graph.nodes ==> core.lineage == a
  {
    hide LineageSound;
    var id := env.NodeId(core);
    if id in lin.graph.nodes {
      NodeIsSound(env, a, lin, id);
      var c :| env.nodeIdOf(c) == id && c.lineage == a && AttemptKeyOf(c.authority) in lin.attempts.Keys;
      assert c == CanonCore(core);
    }
  }

  lemma RecordBasics(env: Env, s: Store, lin: Lineage, lid: nat, r: Request, node: Node, edges: seq<Edge>)
    requires Admitted(env, s, lin, lid, r, node, edges) && r.kind != LinkKind
    ensures node.core.lineage == lid && node.id == env.NodeId(node.core)
    ensures r.kind == RouteStateKind ==>
              node.IsRouteState() && node.core.route == r.key.route && node.core.generation == r.generation &&
              node.core.rootReason == r.rootReason
  {
    hide BatchEdges, MatchesSpecs, StageFreshness, StageLimits, ValidateNode;
  }

  lemma NewRecordElsewhere(env: Env, s: Store, lid: nat, r: Request, node: Node, edges: seq<Edge>, l: nat)
    requires Ready(env, s, LineageAt(s, lid), lid, r, node, edges) && Sound(env, s) && r.kind != LinkKind
    requires l in s.lineages && l != lid
    ensures node.id !in LineageAt(s, l).graph.nodes
  {
    hide Ready, LineageSound, Sound, Env.CollisionFree, Admitted, LineageAt, Room, NormalForm, Env.NodeId;
    ReadyParts(env, s, LineageAt(s, lid), lid, r, node, edges);
    RecordBasics(env, s, LineageAt(s, lid), lid, r, node, edges);
    SoundLineage(env, s, l);
    RecordsDisjoint(env, l, LineageAt(s, l), node.core);
  }

  lemma AppliedOwned(env: Env, s: Store, lid: nat, r: Request, node: Node, edges: seq<Edge>)
    requires lid in s.lineages && Ready(env, s, LineageAt(s, lid), lid, r, node, edges) && Sound(env, s)
    ensures Owned(Applied(env, s, lid, r, node, edges))
  {
    hide Ready, LineageSound, Settled, IndexNode, Env.CollisionFree;
    var s' := Applied(env, s, lid, r, node, edges);
    SettledNodeKeys(env, s, LineageAt(s, lid), lid, r, node, edges, Marked(s));
    IndexedNode(s.indexes, node, lid);
    forall l, id | l in s'.lineages && id in s'.lineages[l].graph.nodes
      ensures id in s'.indexes.owner && s'.indexes.owner[id] == l
    {
      if l != lid && r.kind != LinkKind {
        NewRecordElsewhere(env, s, lid, r, node, edges, l);
      }
      assert id in s.lineages[l].graph.nodes.Keys || (r.kind != LinkKind && id == node.id && l == lid);
    }
  }

  /** Stage 14 keeps the store sound. */
  lemma AppliedSound(env: Env, s: Store, lid: nat, r: Request, node: Node, edges: seq<Edge>)
    requires lid in s.lineages && Ready(env, s, LineageAt(s, lid), lid, r, node, edges)
    requires Sound(env, s) && r.authority.HasIdentity()
    ensures Sound(env, Applied(env, s, lid, r, node, edges))
  {
    hide Ready, LineageSound, Settled, IndexNode, Owned;
    SettledSound(env, s, LineageAt(s, lid), lid, r, node, edges, Marked(s));
    AppliedOwned(env, s, lid, r, node, edges);
  }

  lemma CommitKeepsSound(env: Env, s: Store, r: Request)
    requires env.CollisionFree() && Sound(env, s) && NormalForm(r) && AllowedCommit(env, s, r)
    ensures Sound(env, Commit(env, s, r).store)
  {
    hide Sound, NormalForm, AllowedCommit, Commit, Acquired, Acquire, Authorize, Decision, Applied, Ready,
      Env.CollisionFree, LineageAt;
    CommitCases(env, s, r);
    if Proceeds(env, s, r) {
      var node, edges := ProceedsIsPrepared(env, s, r);
      AppliedSound(env, Acquired(env, s, r), env.lineageIdOf(r.key), r, node, edges);
    } else if s.marks.epoch != 0 {
      AcquiredSound(env, s, r);
    }
  }

  // ---------------------------------------------------------------------------------------
  // One live route state, one lineage for a route
  // ---------------------------------------------------------------------------------------

  lemma NewRecordRoute(env: Env, s: Store, lin: Lineage, lid: nat, r: Request, node: Node, edges: seq<Edge>)
    requires Ready(env, s, lin, lid, r, node, edges) && Standing(lin) && lin.state.key == r.key && r.kind != LinkKind
    ensures node.IsRouteState() ==> node.core.route == lin.state.key.route
    ensures r.kind == RouteStateKind ==> node.IsRouteState() && node.core.generation == r.generation
  {
    hide LineageSound, Ready, Admitted, NormalForm, Room, Env.CollisionFree, Displaced;
    ReadyParts(env, s, lin, lid, r, node, edges);
    RecordBasics(env, s, lin, lid, r, node, edges);
    NewRecordKind(env, s, lin, lid, r, node, edges);
    if r.kind == CorrectionKind {
      TargetPresent(env, s, lin, lid, r, node, edges);
      assert RouteStateWithin(lin.state, lin.graph.nodes[r.target]);
    }
  }

  lemma AppliedIndexed(env: Env, s: Store, lid: nat, r: Request, node: Node, edges: seq<Edge>, l: nat)
    requires lid in s.lineages && Ready(env, s, LineageAt(s, lid), lid, r, node, edges) && l in s.lineages
    requires Placed(s) && LineageAt(s, lid).state.key == r.key
    ensures GenerationIndexed(Applied(env, s, lid, r, node, edges), LineageAt(Applied(env, s, lid, r, node, edges), l))
  {
    hide Ready, Settled, IndexNode, Standing;
    var lin, s' := LineageAt(s, lid), Applied(env, s, lid, r, node, edges);
    SettledNodeKeys(env, s, lin, lid, r, node, edges, Marked(s));
    SettledRepositions(env, Marked(s), lin, r, node, edges);
    IndexedNode(s.indexes, node, lid);
    PlacedLineage(s, lid);
    if r.kind != LinkKind {
      NewRecordRoute(env, s, lin, lid, r, node, edges);
    }
    assert LineagePlaced(s, s.lineages[l]);
    var nodes := s'.lineages[l].graph.nodes.Keys;
    assert s.lineages[l].graph.nodes.Keys <= nodes;
    assert l == lid && r.kind != LinkKind ==> node.id in nodes;
  }

  /** Stage 14 keeps one live route state in every lineage. */
  lemma AppliedPlaced(env: Env, s: Store, lid: nat, r: Request, node: Node, edges: seq<Edge>)
    requires lid in s.lineages && Ready(env, s, LineageAt(s, lid), lid, r, node, edges)
    requires Placed(s) && LineageAt(s, lid).state.key == r.key && Advances(LineageAt(s, lid), r)
    ensures Placed(Applied(env, s, lid, r, node, edges))
  {
    hide Ready, Settled, IndexNode, Standing, GenerationIndexed, Advances;
    var s' := Applied(env, s, lid, r, node, edges);
    SettledSingleLive(env, s, LineageAt(s, lid), lid, r, node, edges, Marked(s));
    SettledRepositions(env, Marked(s), LineageAt(s, lid), r, node, edges);
    forall l | l in s'.lineages ensures LineagePlaced(s', s'.lineages[l]) {
      AppliedIndexed(env, s, lid, r, node, edges, l);
      assert LineagePlaced(s, s.lineages[l]);
    }
  }

  lemma PreparedAdvances(env: Env, s: Store, r: Request, node: Node, edges: seq<Edge>)
    requires env.CollisionFree() && NormalForm(r) && Prepared(env, s, r, node, edges)
    requires Placed(Acquired(env, s, r)) && CorrectsOnce(env, s, r)
    ensures LineageFor(env, s, r).state.key == r.key && Advances(LineageFor(env, s, r), r)
  {
    hide Sound, LineageSound, Placed, Admit, Ready, Standing, GenerationIndexed, NotAlreadyReplaced, LineageAt;
    var s1, lid := Acquired(env, s, r), env.lineageIdOf(r.key);
    SoundLineage(env, s1, lid);
    PlacedLineage(s1, lid);
    SameKey(env, lid, LineageAt(s1, lid), r);
    SoundIsWellFormed(env, lid, LineageAt(s1, lid));
    if r.kind == RouteStateKind {
      RouteStateAdvances(env, s1, LineageAt(s1, lid), lid, r);
    }
  }

  lemma CommitKeepsPlaced(env: Env, s: Store, r: Request)
    requires env.CollisionFree() && Sound(env, s) && NormalForm(r) && AllowedCommit(env, s, r)
    requires Placed(s) && RouteIsOwn(env, s, r) && CorrectsOnce(env, s, r)
    ensures Placed(Commit(env, s, r).store)
  {
    hide Sound, Placed, NormalForm, AllowedCommit, Commit, Acquired, Acquire, Authorize, Decision, Applied, Ready,
      Env.CollisionFree, CorrectsOnce, RouteIsOwn, Advances;
    CommitCases(env, s, r);
    AcquiredPlaced(env, s, r);
    if Proceeds(env, s, r) {
      var node, edges := ProceedsIsPrepared(env, s, r);
      PreparedAdvances(env, s, r, node, edges);
      AppliedPlaced(env, Acquired(env, s, r), env.lineageIdOf(r.key), r, node, edges);
    }
  }

  /** A commit keeps one lineage for every route when its route is its own. */
  lemma CommitKeepsRoutes(env: Env, s: Store, r: Request)
    requires env.CollisionFree() && Sound(env, s) && NormalForm(r) && AllowedCommit(env, s, r)
    requires RoutesDistinct(s) && RouteIsOwn(env, s, r)
    ensures RoutesDistinct(Commit(env, s, r).store)
  {
    hide Sound, NormalForm, AllowedCommit, Commit, Acquire, Authorize, Decision, Ready, Env.CollisionFree, Settled,
      IndexNode, RoutesDistinct, RouteIsOwn, Acquired, Applied;
    CommitCases(env, s, r);
    AcquiredRoutes(env, s, r);
    if Proceeds(env, s, r) {
      var node, edges := ProceedsIsPrepared(env, s, r);
      AppliedRoutes(env, Acquired(env, s, r), env.lineageIdOf(r.key), r, node, edges);
    }
  }

  lemma AcquiredRoutes(env: Env, s: Store, r: Request)
    requires RoutesDistinct(s) && RouteIsOwn(env, s, r)
    ensures RoutesDistinct(Acquired(env, s, r))
  {
  }

  lemma AppliedRoutes(env: Env, s: Store, lid: nat, r: Request, node: Node, edges: seq<Edge>)
    requires RoutesDistinct(s) && lid in s.lineages
    ensures RoutesDistinct(Applied(env, s, lid, r, node, edges))
  {
    hide Settled, IndexNode;
    SettledRepositions(env, Marked(s), LineageAt(s, lid), r, node, edges);
  }
}
