// Two-phase publication: the store generation is a version of everything a publication depends
// on, so an unchanged generation means an unchanged store.
module Sessions {
  import opened Types
  import opened Digraph
  import opened GraphModel
  import opened StoreTypes
  import opened CurrentnessModel
  import opened Requests
  import opened CommitPipeline
  import opened Operations
  import opened Soundness
  import opened Admission
  import opened Settlement
  import opened Transition
  import opened CommitSteps
  import opened CommitInvariants
  import opened RegistrySteps
  import opened CompactSteps
  import opened Progress
  import opened Runs

  datatype LineageContent = LineageContent(
    state: LineageState, nodes: map<nat, Node>, edges: map<nat, Edge>,
    attempts: map<AttemptKey, AttemptRecord>)

  /** A lineage without its derived counters and its cached currentness. */
  function Content(lin: Lineage): LineageContent {
    LineageContent(
      lin.state.(nodeCount := 0, edgeCount := 0, historyCount := 0),
      map id | id in lin.graph.nodes :: lin.graph.nodes[id].(currentness := HistoricalOnly),
      lin.graph.edges, lin.attempts)
  }

  /** The same lineages with the same content; a lineage that is new is empty. */
  ghost predicate SameContent(s: Store, t: Store) {
    && (forall lid :: lid in s.lineages ==> lid in t.lineages && Content(t.lineages[lid]) == Content(s.lineages[lid]))
    && (forall lid :: lid in t.lineages && lid !in s.lineages ==>
          Content(t.lineages[lid]) == Content(NewLineage(lid, t.lineages[lid].state.key)))
  }

  lemma SameContentTrans(s: Store, t: Store, u: Store)
    requires SameContent(s, t) && SameContent(t, u)
    ensures SameContent(s, u)
  {
    forall lid | lid in u.lineages && lid !in s.lineages
      ensures Content(u.lineages[lid]) == Content(NewLineage(lid, u.lineages[lid].state.key))
    {
      if lid in t.lineages {
        ContentKey(t.lineages[lid], u.lineages[lid]);
      }
    }
  }

  lemma ContentKey(a: Lineage, b: Lineage)
    requires Content(a) == Content(b)
    ensures a.state.key == b.state.key
  {
    assert Content(a).state.key == a.state.key && Content(b).state.key == b.state.key;
  }

  /** The versions only rise, and an equal store generation means an equal store. */
  ghost predicate Versioned(s: Store, t: Store) {
    && s.marks.store <= t.marks.store && s.marks.epoch <= t.marks.epoch
    && (t.marks.store == s.marks.store ==>
          SameContent(s, t) && t.marks == s.marks.(epoch := t.marks.epoch))
  }

  lemma VersionedTrans(s: Store, t: Store, u: Store)
    requires Versioned(s, t) && Versioned(t, u)
    ensures Versioned(s, u)
  {
    hide SameContent;
    if u.marks.store == s.marks.store {
      SameContentTrans(s, t, u);
    }
  }

  // ---------------------------------------------------------------------------------------
  // Each operation
  // ---------------------------------------------------------------------------------------

  lemma SameLineagesVersioned(s: Store, t: Store)
    requires t.lineages == s.lineages && s.marks.store <= t.marks.store && s.marks.epoch <= t.marks.epoch
    requires t.marks.store == s.marks.store ==> t.marks == s.marks.(epoch := t.marks.epoch)
    ensures Versioned(s, t)
  {
  }

  lemma RefreshedContent(s: Store, ids: set<nat>, lid: nat)
    ensures Content(Refreshed(s, ids, lid)) == Content(LineageAt(s, lid))
  {
    hide Recomputed, OwnedIds, LineageAt;
    var a, b := Content(Refreshed(s, ids, lid)).nodes, Content(LineageAt(s, lid)).nodes;
    assert a.Keys == b.Keys;
  }

  lemma RefreshVersioned(s: Store, t: Store, ids: set<nat>)
    requires t.lineages == s.lineages && s.marks.store <= t.marks.store && s.marks.epoch <= t.marks.epoch
    requires t.marks.store == s.marks.store ==> t.marks == s.marks.(epoch := t.marks.epoch)
    ensures Versioned(s, RefreshOwned(t, ids))
  {
    hide Content, RefreshOwned, Refreshed;
    RefreshOwnedAt(t, ids);
    forall lid | lid in s.lineages ensures Content(RefreshOwned(t, ids).lineages[lid]) == Content(s.lineages[lid]) {
      RefreshedContent(t, ids, lid);
    }
  }

  lemma RegisterVersioned(env: Env, s: Store, publisher: nat, boot: nat, epoch: nat, scope: Scope)
    requires !s.recovered
    ensures Versioned(s, Register(env, s, publisher, boot, epoch, scope).store)
  {
    hide RefreshOwned, BootNodes, FenceAll, OtherLiveBoots, Versioned;
    var marked := RegisterEpoch(s, epoch);
    SameLineagesVersioned(s, s);
    if marked.Some? {
      var s1 := marked.value;
      SameLineagesVersioned(s, s1);
      var others := OtherLiveBoots(s1.publishers, publisher, boot);
      var s2 := s1.(publishers :=
        FenceAll(s1.publishers, others)[(publisher, boot) := PublisherRecord(epoch, scope, true, false)]);
      RefreshVersioned(s, s2, BootNodes(s2.indexes, others));
    }
  }

  lemma FenceVersioned(s: Store, publisher: nat, boot: nat, a: Authority)
    ensures Versioned(s, Fence(s, publisher, boot, a).store)
  {
    hide RefreshOwned, BootNodes, FenceAll, CheckAdministrator, Versioned;
    var s1 := s.(publishers := FenceAll(s.publishers, {(publisher, boot)}));
    SameLineagesVersioned(s, s);
    RefreshVersioned(s, s1, BootNodes(s1.indexes, {(publisher, boot)}));
  }

  lemma NotifyVersioned(s: Store, n: Notification, a: Authority)
    requires Next(s.marks.store).Some?
    ensures Versioned(s, Notify(s, n, a).store)
  {
    hide RefreshOwned, Collected, CheckAdministrator, Versioned, AdvanceMarks, NotificationOutcome, MarksRise, Unlive;
    SameLineagesVersioned(s, s);
    if CheckAdministrator(s, a) == Ok && NotificationOutcome(s, n) == Updated {
      AdvanceMovesEpoch(s, n);
      SameLineagesVersioned(s, Announced(s, n));
      RefreshVersioned(s, Announced(s, n), Collected(s.indexes, n));
    }
  }

  lemma AdvanceMovesEpoch(s: Store, n: Notification)
    requires NotificationOutcome(s, n) == Updated
    ensures s.marks.epoch <= AdvanceMarks(s.marks, n).epoch
  {
  }

  /** An accepted commit raises the store generation by one; any other leaves it and the content. */
  lemma CommitVersioned(env: Env, s: Store, r: Request)
    requires env.CollisionFree() && Sound(env, s) && NormalForm(r) && AllowedCommit(env, s, r)
    ensures Versioned(s, Commit(env, s, r).store)
    ensures Commit(env, s, r).store.marks == if Proceeds(env, s, r) then Marked(s).marks else s.marks
  {
    hide Sound, NormalForm, AllowedCommit, Commit, Acquire, Authorize, Decision, Settled, Env.CollisionFree,
      SameContent, IndexNode, Acquired;
    CommitCases(env, s, r);
    AcquiredContent(env, s, r);
    SameLineagesVersioned(s, s);
  }

  lemma AcquiredContent(env: Env, s: Store, r: Request)
    ensures SameContent(s, Acquired(env, s, r)) && Acquired(env, s, r).marks == s.marks
  {
    hide Content;
  }

  lemma CompactVersioned(env: Env, s: Store, lid: nat, a: Authority, options: CompactOptions)
    requires env.CollisionFree() && Sound(env, s) && AllowedCompact(s, lid)
    ensures Versioned(s, Compact(env, s, lid, a, options).store)
  {
    hide Sound, LineageSound, CompactLineage, AfterCompaction, Versioned, LivenessOf, Env.CollisionFree, AllowedCompact,
      Doomed, ReplacedExactly, TombstonesValid, OnlyHistory, StartsUndated, WellFormed, Authority.HasIdentity;
    SameLineagesVersioned(s, s);
    if lid in s.lineages && a.HasIdentity() {
      var lin, done := LineageAt(s, lid), CompactLineage(env, LineageAt(s, lid), a, options);
      SoundLineage(env, s, lid);
      SoundIsWellFormed(env, lid, lin);
      CompactLineageExact(env, lin, a, options);
      CompactionBlockedExactly(env, lid, lin, a, options);
      AfterCompactionVersioned(env, s, lid, a, done, Doomed(env, lin, a, options));
    }
  }

  lemma AfterCompactionVersioned(env: Env, s: Store, lid: nat, a: Authority, done: Compaction, ids: set<nat>)
    requires lid in s.lineages && AllowedCompact(s, lid)
    requires done.refused != Ok ==> done == Compaction(LineageAt(s, lid).graph, 0, done.refused)
    requires ReplacedExactly(env, a, LineageAt(s, lid).graph, done.graph, ids) && |ids| == done.count
    ensures Versioned(s, AfterCompaction(s, lid, done).store)
  {
    hide Content, HistoryRecords, Tombstone;
    var s' := AfterCompaction(s, lid, done).store;
    if done.count == 0 {
      assert ids == {};
      assert done.graph.nodes == s.lineages[lid].graph.nodes;
      SameUpToCounters(s.lineages[lid], s'.lineages[lid]);
    }
  }

  lemma SameUpToCounters(a: Lineage, b: Lineage)
    requires b.graph == a.graph && b.attempts == a.attempts
    requires b.state == a.state.(nodeCount := b.state.nodeCount, edgeCount := b.state.edgeCount,
                                 historyCount := b.state.historyCount)
    ensures Content(b) == Content(a)
  {
  }

  // ---------------------------------------------------------------------------------------
  // Runs
  // ---------------------------------------------------------------------------------------

  lemma NotRecovered(env: Env, s: Store)
    requires Sound(env, s)
    ensures !s.recovered
  {
    hide LineageSound;
  }

  lemma StepVersioned(env: Env, s: Store, op: Op)
    requires env.CollisionFree() && Sound(env, s) && RespectsAll(env, s, op, {Fits})
    ensures Versioned(s, Step(env, s, op))
  {
    hide Sound, Env.CollisionFree, Register, Fence, Notify, Publish, PublishSession, Commit, Compact, AllowedCommit,
      AllowedCompact, Versioned, NormalForm, RequestOf, Proceeds;
    assert Respects(env, s, op, Fits);
    match op {
      case RegisterOp(p, b, e, scope) =>
        NotRecovered(env, s);
        RegisterVersioned(env, s, p, b, e, scope);
      case FenceOp(p, b, a) => FenceVersioned(s, p, b, a);
      case NotifyOp(n, a) => NotifyVersioned(s, n, a);
      case CompactOp(lid, a, options) => CompactVersioned(env, s, lid, a, options);
      case _ =>
        PublicationFits(env, s, op, {Fits});
        SameLineagesVersioned(s, s);
        if Step(env, s, op) != s {
          assert RespectsCommit(env, s, RequestOf(env, op).value, Fits);
          CommitVersioned(env, s, RequestOf(env, op).value);
        }
    }
  }

  lemma {:induction false} RunVersioned(env: Env, s: Store, ops: seq<Op>)
    requires env.CollisionFree() && Sound(env, s) && Obeys(env, s, ops, {Fits})
    ensures Versioned(s, Run(env, s, ops))
    decreases |ops|
  {
    hide Sound, Env.CollisionFree, RespectsAll, Step, Versioned;
    if ops == [] {
      SameLineagesVersioned(s, s);
    } else {
      var t := Step(env, s, ops[0]);
      StepKeepsSound(env, s, ops[0]);
      StepVersioned(env, s, ops[0]);
      RunVersioned(env, t, ops[1..]);
      VersionedTrans(s, t, Run(env, s, ops));
    }
  }

  /** Optimistic sessions. A session that passes its checks commits against the very records,
      edges, ledger, lineage states and watermarks it was begun on, whatever ran in between; only
      empty lineages, the registry and cached currentness may differ. */
  lemma SessionSeesItsSnapshot(env: Env, s: Store, r: Request, ops: seq<Op>)
    requires env.CollisionFree() && Sound(env, s) && Obeys(env, s, ops, {Fits})
    requires CheckSession(env, Run(env, s, ops), BeginPublication(env, s, r), r) == Ok
    ensures
      var t := Run(env, s, ops);
      && SameContent(s, t) && t.marks == s.marks
      && CommitSession(env, t, BeginPublication(env, s, r), r) == Commit(env, t, r)
  {
    hide Sound, Env.CollisionFree, Obeys, Run, SameContent, Commit;
    RunVersioned(env, s, ops);
  }

  /** A session is refused as soon as the store generation has moved. */
  lemma MovedStoreRefusesSession(env: Env, s: Store, t: Store, r: Request)
    requires t.marks.store != s.marks.store
    ensures CheckSession(env, t, BeginPublication(env, s, r), r) != Ok
    ensures CommitSession(env, t, BeginPublication(env, s, r), r).store == t
  {
    hide Commit;
  }
}
