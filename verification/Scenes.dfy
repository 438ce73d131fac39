// One publisher and one lineage, from the empty store on: what a run of accepted operations has
// led to, and what each further publication leaves behind.
module Scenes {
  import opened Types
  import opened Ordering
  import opened Digraph
  import opened GraphModel
  import opened StoreTypes
  import opened CurrentnessModel
  import opened Requests
  import opened CommitPipeline
  import opened Operations
  import opened Soundness
  import opened Admission
  import opened Insertions
  import opened Evolution
  import opened Rebinding
  import opened Settlement
  import opened Transition
  import opened LineageSteps
  import opened CommitSteps
  import opened CommitInvariants
  import opened Progress
  import opened Runs
  import opened Origins
  import opened Acceptance

  // ---------------------------------------------------------------------------------------
  // Following a run
  // ---------------------------------------------------------------------------------------

  /** What an operation answers. */
  ghost function OutcomeOf(env: Env, s: Store, op: Op): Outcome {
    match op
    case RegisterOp(p, b, e, scope) => Register(env, s, p, b, e, scope).outcome
    case FenceOp(p, b, a) => Fence(s, p, b, a).outcome
    case NotifyOp(n, a) => Notify(s, n, a).outcome
    case PublishOp(c) => Publish(env, s, c).outcome
    case SessionOp(snapshot, c) => PublishSession(env, s, snapshot, c).outcome
    case CompactOp(lid, a, options) => Compact(env, s, lid, a, options).outcome
  }

  predicate IsAccepted(o: Outcome) {
    o in {Ok, Created, Linked, Updated}
  }

  ghost predicate AllAccepted(env: Env, s: Store, ops: seq<Op>)
    decreases |ops|
  {
    hide Step, OutcomeOf;
    ops == [] || (IsAccepted(OutcomeOf(env, s, ops[0])) && AllAccepted(env, Step(env, s, ops[0]), ops[1..]))
  }

  /** A run from the empty store to here: every operation accepted, every assumption met. */
  ghost predicate Leads(env: Env, ops: seq<Op>, s: Store) {
    && s == Run(env, EMPTY_STORE, ops) && AllAccepted(env, EMPTY_STORE, ops)
    && Obeys(env, EMPTY_STORE, ops, EVERY_RULE)
  }

  lemma {:induction false} RunAppend(env: Env, s: Store, ops: seq<Op>, op: Op)
    requires AllAccepted(env, s, ops) && Obeys(env, s, ops, EVERY_RULE)
    requires IsAccepted(OutcomeOf(env, Run(env, s, ops), op))
    requires RespectsAll(env, Run(env, s, ops), op, EVERY_RULE)
    ensures Run(env, s, ops + [op]) == Step(env, Run(env, s, ops), op)
    ensures AllAccepted(env, s, ops + [op]) && Obeys(env, s, ops + [op], EVERY_RULE)
    decreases |ops|
  {
    hide Step, RespectsAll, OutcomeOf, IsAccepted;
    if ops == [] {
      assert ops + [op] == [op] && [op][1..] == [];
      assert Run(env, Step(env, s, op), []) == Step(env, s, op);
      assert Obeys(env, Step(env, s, op), [], EVERY_RULE) && AllAccepted(env, Step(env, s, op), []);
    } else {
      assert (ops + [op])[0] == ops[0] && (ops + [op])[1..] == ops[1..] + [op];
      RunAppend(env, Step(env, s, ops[0]), ops[1..], op);
    }
  }

  lemma LeadsOn(env: Env, ops: seq<Op>, s: Store, op: Op)
    requires Leads(env, ops, s) && IsAccepted(OutcomeOf(env, s, op)) && RespectsAll(env, s, op, EVERY_RULE)
    ensures Leads(env, ops + [op], Step(env, s, op))
  {
    hide Run, Obeys, AllAccepted, RespectsAll, Step, OutcomeOf, IsAccepted;
    RunAppend(env, EMPTY_STORE, ops, op);
  }

  lemma RegisterIs(env: Env, s: Store, p: nat, b: nat, e: nat, scope: Scope)
    ensures Step(env, s, RegisterOp(p, b, e, scope)) == Register(env, s, p, b, e, scope).store
    ensures OutcomeOf(env, s, RegisterOp(p, b, e, scope)) == Register(env, s, p, b, e, scope).outcome
  {
    hide Register, Fence, Notify, Publish, PublishSession, Compact;
  }

  lemma NotifyIs(env: Env, s: Store, n: Notification, a: Authority)
    ensures Step(env, s, NotifyOp(n, a)) == Notify(s, n, a).store
    ensures OutcomeOf(env, s, NotifyOp(n, a)) == Notify(s, n, a).outcome
  {
    hide Register, Fence, Notify, Publish, PublishSession, Compact;
  }

  lemma CompactIs(env: Env, s: Store, lid: nat, a: Authority, options: CompactOptions)
    ensures Step(env, s, CompactOp(lid, a, options)) == Compact(env, s, lid, a, options).store
    ensures OutcomeOf(env, s, CompactOp(lid, a, options)) == Compact(env, s, lid, a, options).outcome
  {
    hide Register, Fence, Notify, Publish, PublishSession, Compact;
  }

  lemma LeadsKeeps(env: Env, ops: seq<Op>, s: Store)
    requires env.CollisionFree() && Leads(env, ops, s)
    ensures Invariant(env, s) && Originated(env, s.indexes)
  {
    hide Run, Obeys, AllAccepted, Invariant, Env.CollisionFree, Originated;
    ReachedInvariant(env, ops);
    ReachedOriginated(env, ops);
  }

  // ---------------------------------------------------------------------------------------
  // The scene
  // ---------------------------------------------------------------------------------------

  datatype Caller = Caller(publisher: nat, boot: nat, epoch: nat)

  predicate IsCaller(w: Caller) {
    w.publisher != 0 && w.boot != 0 && w.epoch != 0
  }

  /** The caller's authority for the attempt after these operations. */
  function Signed(w: Caller, ops: seq<Op>): Authority {
    Authority(w.publisher, w.boot, w.epoch, |ops| + 1, Fabric, None, None)
  }

  /** The caller is registered, live and of the present epoch. */
  predicate Serves(s: Store, w: Caller) {
    IsCaller(w) && s.marks.epoch == w.epoch && LivenessOf(s.publishers, (w.publisher, w.boot)) == Live
  }

  /** One caller, one lineage, and what every record of it is bound to. */
  datatype Scene = Scene(env: Env, key: LineageKey, caller: Caller, bindings: Bindings)

  ghost predicate Staged(x: Scene) {
    && x.env.CollisionFree() && IsCaller(x.caller) && CheckLineageKey(x.key, x.env.limits) == Ok
    && ValidateBindingFields(x.bindings) == Ok && x.bindings.adaptation == None
  }

  function Lid(x: Scene): nat {
    x.env.lineageIdOf(x.key)
  }

  /** The lineage, empty before its first record. */
  function Line(x: Scene, s: Store): Lineage {
    if Lid(x) in s.lineages then s.lineages[Lid(x)] else NewLineage(Lid(x), x.key)
  }

  /** No route state of the lineage's route is indexed at a newer generation than its own. */
  ghost predicate IndexedWithin(st: LineageState, x: Indexes) {
    forall g :: (st.key.route, g) in x.generation ==> g <= st.generation
  }

  function EdgeBound(k: nat): nat {
    if k == 0 then 0 else 2 * EdgeBound(k - 1) + 1
  }

  /** How much k operations can have added. */
  predicate SizeWithin(lin: Lineage, k: nat) {
    && |lin.graph.nodes| <= k && |lin.graph.edges| <= EdgeBound(k) && |lin.attempts| <= k
    && lin.state.lineageGeneration <= k
  }

  /** An open lineage after these operations of the scene's caller. */
  ghost predicate Young(x: Scene, s: Store, ops: seq<Op>) {
    var lin := Line(x, s);
    && !Closed(lin.state.lifecycle) && SizeWithin(lin, |ops|)
    && (forall a :: a in lin.attempts ==> a.0 == x.caller.publisher && a.1 <= |ops|)
    && (forall id :: BoundAt(x, s, id))
    && IndexedWithin(lin.state, s.indexes)
  }

  /** A run has led to a store with no other lineage, and its caller can go on. */
  ghost predicate On(x: Scene, ops: seq<Op>, s: Store) {
    && Leads(x.env, ops, s) && s.lineages.Keys <= {Lid(x)} && Serves(s, x.caller) && Young(x, s, ops)
    && s.marks.store <= |ops| && StageFreshness(s.marks, x.bindings) == Ok
  }

  /** Room for a few operations. */
  predicate Generous(limits: Limits) {
    && limits.maxBatch > 0 && limits.maxNodes >= 8 && limits.maxHistory >= 8 && limits.maxAttempts >= 8
    && limits.maxEdges >= 512 && limits.maxParents >= 512 && limits.maxChildren >= 512
    && limits.maxLineages > 0 && limits.maxPublishers > 2 && limits.maxDepth > 0
  }

  lemma EdgeBoundSmall(k: nat)
    ensures k < 8 ==> EdgeBound(k) < 256
  {
    assert EdgeBound(1) == 1 && EdgeBound(2) == 3 && EdgeBound(3) == 7 && EdgeBound(4) == 15;
    assert EdgeBound(5) == 31 && EdgeBound(6) == 63 && EdgeBound(7) == 127;
  }

  lemma HistoryIsPart(lin: Lineage)
    requires CountsExact(lin)
    ensures lin.state.historyCount <= |lin.graph.nodes|
  {
    hide IsHistoryRecord;
    SubsetSize(HistoryRecords(lin.graph), lin.graph.nodes.Keys);
    assert |lin.graph.nodes.Keys| == |lin.graph.nodes|;
  }

  lemma LineSound(x: Scene, ops: seq<Op>, s: Store)
    requires Staged(x) && On(x, ops, s)
    ensures LineageSound(x.env, Lid(x), Line(x, s)) && CountsExact(Line(x, s)) && WellFormed(Line(x, s).graph)
    ensures Lid(x) != 0 && Line(x, s).state.key == x.key && Standing(Line(x, s))
  {
    hide Leads, Sound, Placed, AllTracked, CacheAgrees, LineageSound, Standing, Young, Serves, StageFreshness,
      WellFormed, Originated, CheckLineageKey, ValidateBindingFields, Env.CollisionFree, CountsExact, Closed;
    LeadsKeeps(x.env, ops, s);
    KeyHasRoute(x.key, x.env.limits);
    if Lid(x) in s.lineages {
      SoundLineage(x.env, s, Lid(x));
      PlacedLineage(s, Lid(x));
    } else {
      NewLineageSound(x.env, Lid(x), x.key);
      NewLineageStands(Lid(x), x.key);
    }
    SoundParts(x.env, Lid(x), Line(x, s));
    LineageIdNonZero(x.env, Lid(x), Line(x, s));
    SameKey(x.env, Lid(x), Line(x, s), BlankRequest(LinkKind, x.key, Signed(x.caller, ops)));
  }

  lemma KeyHasRoute(key: LineageKey, limits: Limits)
    requires CheckLineageKey(key, limits) == Ok
    ensures key.route != 0
  {
  }

  lemma HasRoom(x: Scene, ops: seq<Op>, s: Store)
    requires Staged(x) && On(x, ops, s) && Generous(x.env.limits) && |ops| < 8
    ensures Spacious(x.env.limits, Line(x, s))
  {
    hide Leads, LineageSound, Standing, Staged, Serves, StageFreshness, CountsExact, WellFormed, EdgeBound,
      IndexedWithin;
    LineSound(x, ops, s);
    HistoryIsPart(Line(x, s));
    EdgeBoundSmall(|ops|);
  }

  // ---------------------------------------------------------------------------------------
  // One publication
  // ---------------------------------------------------------------------------------------

  predicate KeepsOpen(r: Request) {
    r.kind != RevocationKind && r.kind != RetirementKind
  }

  /** The call is brought into this form, for this lineage, signed for the next attempt. */
  predicate Submits(x: Scene, ops: seq<Op>, c: ApiCall, r: Request) {
    && WellTyped(c) && Normalize(c, x.env.limits) == Success(r) && KeepsOpen(r) && r.key == x.key
    && r.authority == Signed(x.caller, ops) && r.explicitLineage == None
    && r.bindings == if r.kind == LinkKind then NO_BINDINGS else x.bindings
  }

  /** The call stands to be let through, with the record and at most one edge. */
  ghost predicate Prompts(x: Scene, ops: seq<Op>, s: Store, c: ApiCall, r: Request, node: Node, edges: seq<Edge>) {
    && Submits(x, ops, c, r) && Builds(x.env, s, r, node, edges)
    && |edges| <= 1 && (r.kind == LinkKind || AllOutward(edges)) && Spacious(x.env.limits, Line(x, s))
    && |ops| < 8 && x.env.limits.maxLineages > 0
  }

  lemma SubmittedIsThrough(x: Scene, ops: seq<Op>, s: Store, c: ApiCall, r: Request, node: Node, edges: seq<Edge>)
    requires Staged(x) && On(x, ops, s) && Prompts(x, ops, s, c, r, node, edges)
    ensures LetThrough(x.env, s, r, node, edges) && NormalForm(r)
  {
    hide Leads, Normalize, NormalForm, StageFreshness, Builds, Spacious, AllOutward, Authorize, FreshAttempt, Young;
    NormalizeGivesNormalForm(c, x.env.limits);
    SubmittedIsAuthorized(x, s, c, r, ops);
    SubmittedIsFresh(x, ops, s, c, r);
    assert s.lineages.Keys == {} || s.lineages.Keys == {Lid(x)};
    assert |s.lineages.Keys| == |s.lineages|;
  }

  lemma SubmittedIsAuthorized(x: Scene, s: Store, c: ApiCall, r: Request, ops: seq<Op>)
    requires Submits(x, ops, c, r) && Serves(s, x.caller)
    ensures Authorize(x.env, s, r) == Ok
  {
    hide Normalize, LivenessOf;
  }

  lemma SubmittedIsFresh(x: Scene, ops: seq<Op>, s: Store, c: ApiCall, r: Request)
    requires Submits(x, ops, c, r) && Young(x, s, ops) && |ops| < 8
    ensures FreshAttempt(LineageFor(x.env, s, r), r) && Next(LineageFor(x.env, s, r).state.lineageGeneration).Some?
  {
    hide Normalize, IndexedWithin, EdgeBound;
  }

  /** What an accepted publication does to the store. */
  ghost predicate Took(x: Scene, s: Store, t: Store, r: Request, node: Node, edges: seq<Edge>) {
    && r.key == x.key && Prepared(x.env, s, r, node, edges)
    && t == Applied(x.env, Acquired(x.env, s, r), Lid(x), r, node, edges)
  }

  /** The rules that do not depend on what is corrected. */
  lemma SubmittedObeys(x: Scene, ops: seq<Op>, s: Store, c: ApiCall, r: Request)
    requires Staged(x) && On(x, ops, s) && Submits(x, ops, c, r) && AllowedCommit(x.env, s, r)
    ensures RespectsAll(x.env, s, PublishOp(c), {Fits, OwnRoute, CacheSafe})
    ensures Respects(x.env, s, PublishOp(c), CorrectsFirst) <==> CorrectsOnce(x.env, s, r)
  {
    hide Leads, Normalize, StageFreshness, Young, AllowedCommit, Decision, Serves, CorrectsOnce;
  }

  lemma PublishIs(env: Env, s: Store, c: ApiCall, r: Request)
    requires Normalize(c, env.limits) == Success(r)
    ensures Step(env, s, PublishOp(c)) == Commit(env, s, r).store
    ensures OutcomeOf(env, s, PublishOp(c)) == Commit(env, s, r).outcome
  {
    hide Normalize, Commit, Register, Fence, Notify, PublishSession, Compact;
  }

  lemma SubmittedForm(x: Scene, ops: seq<Op>, c: ApiCall, r: Request)
    requires Submits(x, ops, c, r)
    ensures Normalize(c, x.env.limits) == Success(r)
  {
    hide Normalize;
  }

  lemma SubmittedIsApplied(x: Scene, ops: seq<Op>, s: Store, c: ApiCall, r: Request, node: Node, edges: seq<Edge>)
    requires Staged(x) && On(x, ops, s) && Prompts(x, ops, s, c, r, node, edges)
    ensures Prepared(x.env, s, r, node, edges) && AllowedCommit(x.env, s, r) && r.key == x.key
    ensures AppliedWhole(Commit(x.env, s, r), r, Applied(x.env, Acquired(x.env, s, r), Lid(x), r, node, edges))
  {
    hide Leads, Invariant, Originated, Normalize, NormalForm, Builds, Spacious, AllOutward, Young, Serves,
      StageFreshness, LetThrough, Applied, AllowedCommit, Commit, Acquired, Prepared, Line, Env.CollisionFree,
      AppliedWhole, CheckLineageKey, ValidateBindingFields;
    LeadsKeeps(x.env, ops, s);
    InvariantSound(x.env, s);
    SubmittedIsThrough(x, ops, s, c, r, node, edges);
    LetThroughIsApplied(x.env, s, r, node, edges);
  }

  /** What is let through is accepted, and respects every rule unless it corrects what has been
      corrected. */
  lemma Published(x: Scene, ops: seq<Op>, s: Store, c: ApiCall, r: Request, node: Node, edges: seq<Edge>)
    requires Staged(x) && On(x, ops, s) && Prompts(x, ops, s, c, r, node, edges)
    ensures Took(x, s, Step(x.env, s, PublishOp(c)), r, node, edges)
    ensures IsAccepted(OutcomeOf(x.env, s, PublishOp(c)))
    ensures RespectsAll(x.env, s, PublishOp(c), {Fits, OwnRoute, CacheSafe})
    ensures Respects(x.env, s, PublishOp(c), CorrectsFirst) <==> NotAlreadyReplaced(Line(x, s), r)
  {
    hide On, Applied, AllowedCommit, Commit, RespectsAll, Respects, NotAlreadyReplaced, Acquired, Step, OutcomeOf,
      Submits, Staged, Prepared, Line, Builds, Spacious, AllOutward, Normalize;
    SubmittedIsApplied(x, ops, s, c, r, node, edges);
    SubmittedObeys(x, ops, s, c, r);
    SubmittedForm(x, ops, c, r);
    PublishIs(x.env, s, c, r);
    DecidedOnce(x, s, r, node, edges);
  }

  lemma DecidedOnce(x: Scene, s: Store, r: Request, node: Node, edges: seq<Edge>)
    requires r.key == x.key && Prepared(x.env, s, r, node, edges)
    ensures CorrectsOnce(x.env, s, r) <==> NotAlreadyReplaced(Line(x, s), r)
  {
    hide Decision, Sound, Ready, NotAlreadyReplaced;
    LineIs(x, s, r);
  }

  lemma InvariantSound(env: Env, s: Store)
    requires Invariant(env, s)
    ensures Sound(env, s) && Placed(s) && CacheAgrees(s)
  {
    hide Sound, Placed, AllTracked, CacheAgrees;
  }

  lemma LineIs(x: Scene, s: Store, r: Request)
    requires r.key == x.key
    ensures LineageFor(x.env, s, r) == Line(x, s)
  {
  }

  // ---------------------------------------------------------------------------------------
  // What it leaves behind
  // ---------------------------------------------------------------------------------------

  /** The commit it was, on the lineage as it was found. */
  lemma TookSettled(x: Scene, s: Store, t: Store, r: Request, node: Node, edges: seq<Edge>) returns (s1: Store)
    requires Took(x, s, t, r, node, edges)
    ensures s1 == Acquired(x.env, s, r) && Ready(x.env, s1, Line(x, s), Lid(x), r, node, edges)
    ensures Lid(x) in t.lineages && Line(x, t) == Settled(x.env, Marked(s1), Line(x, s), r, node, edges)
    ensures t.lineages.Keys == s.lineages.Keys + {Lid(x)} && t.publishers == s.publishers
    ensures t.marks == Marked(s).marks
    ensures t.indexes == if r.kind == LinkKind then s.indexes else IndexNode(s.indexes, node, Lid(x))
  {
    hide Decision, Sound, Ready, Settled, IndexNode;
    s1 := Acquired(x.env, s, r);
    LineIs(x, s, r);
  }

  /** Where the lineage stands, and the new record, are those of the request. */
  ghost predicate Moves(x: Scene, s: Store, t: Store, r: Request, node: Node) {
    && Repositioned(Line(x, s).state, Line(x, t).state, r, node)
    && t.marks == Marked(s).marks && t.publishers == s.publishers
    && Line(x, t).graph.nodes.Keys == Line(x, s).graph.nodes.Keys + (if r.kind == LinkKind then {} else {node.id})
    && (r.kind != LinkKind ==> node.id !in Line(x, s).graph.nodes && node.id != 0)
  }

  lemma TookMoves(x: Scene, s: Store, t: Store, r: Request, node: Node, edges: seq<Edge>)
    requires Took(x, s, t, r, node, edges)
    ensures Moves(x, s, t, r, node)
  {
    hide Took, Ready, Settled, Repositioned, Acquired, LineageSound, NormalForm, Admitted, Room, IndexNode;
    var s1 := TookSettled(x, s, t, r, node, edges);
    ReadyParts(x.env, s1, Line(x, s), Lid(x), r, node, edges);
    SettledNodeKeys(x.env, s1, Line(x, s), Lid(x), r, node, edges, Marked(s1));
    SettledRepositions(x.env, Marked(s1), Line(x, s), r, node, edges);
    if r.kind != LinkKind {
      RecordIdIsValid(x.env, s1, Line(x, s), Lid(x), r, node, edges);
    }
  }

  /** Every record is the new one or succeeds one that was there. */
  lemma TookRecord(x: Scene, s: Store, t: Store, r: Request, node: Node, edges: seq<Edge>, id: nat)
    requires Took(x, s, t, r, node, edges)
    ensures NewOrSucceeds(Line(x, s).graph, Line(x, t).graph, r, node, id)
  {
    hide Took, Ready, Settled, Acquired, NewOrSucceeds, IndexNode;
    var s1 := TookSettled(x, s, t, r, node, edges);
    SettledRecord(x.env, s1, Line(x, s), Lid(x), r, node, edges, Marked(s1), id);
  }

  lemma TookContent(x: Scene, s: Store, t: Store, r: Request, node: Node, edges: seq<Edge>)
    requires Took(x, s, t, r, node, edges) && r.kind != LinkKind
    ensures GoodRecord(x.env, Line(x, s), Lid(x), r, node)
  {
    hide Took, LineageSound, BatchEdges, GoodRecord, Settled, Acquired, IndexNode, BatchFits, NormalForm,
      StageFreshness, StageLimits, MatchesSpecs;
    var s1 := TookSettled(x, s, t, r, node, edges);
  }

  predicate BoundAt(x: Scene, s: Store, id: nat) {
    id in Line(x, s).graph.nodes ==> Line(x, s).graph.nodes[id].core.bindings == x.bindings
  }

  lemma BindingsKept(x: Scene, s: Store, t: Store, r: Request, node: Node, edges: seq<Edge>, id: nat)
    requires Took(x, s, t, r, node, edges) && (r.kind != LinkKind ==> r.bindings == x.bindings)
    requires BoundAt(x, s, id)
    ensures BoundAt(x, t, id)
  {
    hide Took, Line;
    TookRecord(x, s, t, r, node, edges, id);
    if r.kind != LinkKind {
      TookContent(x, s, t, r, node, edges);
    }
  }

  /** The new record is no newer than the lineage it leaves. */
  lemma NewRecordWithin(env: Env, s: Store, lin: Lineage, lid: nat, r: Request, node: Node, edges: seq<Edge>)
    requires Ready(env, s, lin, lid, r, node, edges) && Standing(lin) && lin.state.key == r.key && r.kind != LinkKind
    ensures node.IsRouteState() ==>
              node.core.generation <= (if r.kind == RouteStateKind then r.generation else lin.state.generation)
  {
    hide Ready, LineageSound, Admitted, NormalForm, Env.CollisionFree, Room, Displaced, CurrentPresent;
    ReadyParts(env, s, lin, lid, r, node, edges);
    NewRecordRoute(env, s, lin, lid, r, node, edges);
    NewRecordKind(env, s, lin, lid, r, node, edges);
    if r.kind == CorrectionKind {
      TargetPresent(env, s, lin, lid, r, node, edges);
      assert RouteStateWithin(lin.state, lin.graph.nodes[r.target]);
    }
  }

  lemma IndexStaysWithin(x: Scene, s: Store, t: Store, r: Request, node: Node, edges: seq<Edge>)
    requires Took(x, s, t, r, node, edges) && Standing(Line(x, s)) && Line(x, s).state.key == r.key
    requires IndexedWithin(Line(x, s).state, s.indexes)
    requires r.kind == RouteStateKind ==> Line(x, s).state.generation <= r.generation
    ensures IndexedWithin(Line(x, t).state, t.indexes)
  {
    hide Took, Ready, Settled, Standing, IndexNode, Line;
    var s1 := TookSettled(x, s, t, r, node, edges);
    TookMoves(x, s, t, r, node, edges);
    if r.kind != LinkKind {
      NewRecordWithin(x.env, s1, Line(x, s), Lid(x), r, node, edges);
      IndexedNode(s.indexes, node, Lid(x));
    }
  }

  lemma SizeGrows(x: Scene, s: Store, t: Store, r: Request, node: Node, edges: seq<Edge>, k: nat, k': nat)
    requires Took(x, s, t, r, node, edges) && |edges| <= 1 && SizeWithin(Line(x, s), k) && k' == k + 1
    ensures SizeWithin(Line(x, t), k')
  {
    hide Took, Ready, Settled, IndexNode, Line;
    var s1 := TookSettled(x, s, t, r, node, edges);
    TookMoves(x, s, t, r, node, edges);
    SettledGrowsByOne(x.env, s1, Line(x, s), Lid(x), r, node, edges, Marked(s1));
  }

  lemma AttemptsStayOf(x: Scene, s: Store, t: Store, r: Request, node: Node, edges: seq<Edge>, ops: seq<Op>, op: Op)
    requires Took(x, s, t, r, node, edges) && Young(x, s, ops) && r.authority == Signed(x.caller, ops)
    ensures forall a :: a in Line(x, t).attempts ==> a.0 == x.caller.publisher && a.1 <= |ops + [op]|
  {
    hide Took, Ready, Settled, IndexNode, Line, IndexedWithin, SizeWithin, Closed, Env.RequestDigest;
    var s1 := TookSettled(x, s, t, r, node, edges);
    SettledLedger(x.env, Marked(s1), Line(x, s), r, node, edges);
  }

  lemma StaysYoung(x: Scene, ops: seq<Op>, s: Store, t: Store, c: ApiCall, r: Request, node: Node, edges: seq<Edge>)
    requires Staged(x) && On(x, ops, s) && Submits(x, ops, c, r) && Took(x, s, t, r, node, edges) && |edges| <= 1
    requires r.kind == RouteStateKind ==> Line(x, s).state.generation <= r.generation
    ensures Young(x, t, ops + [PublishOp(c)])
  {
    hide Staged, Leads, Took, Line, Serves, LineageSound, Standing, StageFreshness, IndexedWithin, SizeWithin,
      Normalize, WellFormed, CountsExact, BoundAt;
    LineSound(x, ops, s);
    TookMoves(x, s, t, r, node, edges);
    IndexStaysWithin(x, s, t, r, node, edges);
    SizeGrows(x, s, t, r, node, edges, |ops|, |ops| + 1);
    AttemptsStayOf(x, s, t, r, node, edges, ops, PublishOp(c));
    forall id ensures BoundAt(x, t, id) {
      BindingsKept(x, s, t, r, node, edges, id);
    }
  }

  lemma RespectsEvery(env: Env, s: Store, op: Op)
    requires RespectsAll(env, s, op, {Fits, OwnRoute, CacheSafe}) && Respects(env, s, op, CorrectsFirst)
    ensures RespectsAll(env, s, op, EVERY_RULE)
  {
    hide Respects;
  }

  /** An accepted publication that corrects nothing twice leads on. */
  lemma GoesOn(x: Scene, ops: seq<Op>, s: Store, c: ApiCall, r: Request, node: Node, edges: seq<Edge>)
    requires Staged(x) && On(x, ops, s) && Prompts(x, ops, s, c, r, node, edges)
    requires NotAlreadyReplaced(Line(x, s), r)
    requires r.kind == RouteStateKind ==> Line(x, s).state.generation <= r.generation
    ensures Took(x, s, Step(x.env, s, PublishOp(c)), r, node, edges)
    ensures On(x, ops + [PublishOp(c)], Step(x.env, s, PublishOp(c)))
  {
    hide Staged, On, Young, Took, RespectsAll, Respects, Step, OutcomeOf, NotAlreadyReplaced, Line, IsAccepted, Leads,
      Builds, Submits, Spacious, AllOutward;
    var t := Step(x.env, s, PublishOp(c));
    Published(x, ops, s, c, r, node, edges);
    RespectsEvery(x.env, s, PublishOp(c));
    LeadsToHere(x, ops, s);
    LeadsOn(x.env, ops, s, PublishOp(c));
    StaysYoung(x, ops, s, t, c, r, node, edges);
    StaysOn(x, ops, s, t, r, node, edges, PublishOp(c));
  }

  lemma LeadsToHere(x: Scene, ops: seq<Op>, s: Store)
    requires On(x, ops, s)
    ensures Leads(x.env, ops, s) && Serves(s, x.caller) && s.lineages.Keys <= {Lid(x)} && s.marks.store <= |ops|
  {
    hide Leads, Young, Serves, StageFreshness;
  }

  lemma StaysOn(x: Scene, ops: seq<Op>, s: Store, t: Store, r: Request, node: Node, edges: seq<Edge>, op: Op)
    requires On(x, ops, s) && Took(x, s, t, r, node, edges)
    requires Leads(x.env, ops + [op], t) && Young(x, t, ops + [op])
    ensures On(x, ops + [op], t)
  {
    hide Leads, Young, Took, Line, IndexNode, Settled, Ready, Acquired, StageFreshness, LivenessOf;
    var s1 := TookSettled(x, s, t, r, node, edges);
    MarkIsNotRead(s.marks, t.marks, x.bindings);
  }

  lemma MarkIsNotRead(m: Watermarks, m': Watermarks, b: Bindings)
    requires m' == m.(store := m'.store)
    ensures StageFreshness(m', b) == StageFreshness(m, b)
  {
  }
}
