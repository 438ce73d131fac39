// A registration re-evaluates only the records of the boots it supersedes. So it keeps stored
// currentness exact exactly when no record of its own boot is held to be of a fenced publisher.
module BootIndexes {
  import opened Types
  import opened Ordering
  import opened GraphModel
  import opened StoreTypes
  import opened CurrentnessModel
  import opened Requests
  import opened CommitPipeline
  import opened Operations
  import opened Soundness
  import opened Admission
  import opened Evolution
  import opened Settlement
  import opened Transition
  import opened CommitSteps
  import opened CommitCache
  import opened CommitInvariants
  import opened RegistrySteps
  import opened Runs
  import opened Origins

  /** A live record of the lineage. */
  ghost predicate LiveIn(s: Store, lid: nat, n: Node) {
    lid in s.lineages && HoldsRecord(LineageAt(s, lid).graph, n) && IsLive(n.lifecycle)
  }

  lemma IndexedUnderOwnBoot(env: Env, s: Store, lid: nat, n: Node, boot: nat)
    requires env.CollisionFree() && Sound(env, s) && Originated(env, s.indexes) && LiveIn(s, lid, n)
    requires n.id in IndexAt(s.indexes.boot, boot)
    ensures n.core.authority.boot == boot
  {
    hide Sound, LineageSound, IndexAt, Env.CollisionFree, Env.NodeId;
    SoundLineage(env, s, lid);
    assert SignedBy(env, n.id, boot);
    var c :| env.NodeId(c) == n.id && c.authority.boot == boot;
    SameOrigin(env, lid, LineageAt(s, lid), n, c);
  }

  /** A record of a lineage that is not retired, held to be of a fenced publisher. */
  ghost predicate Held(s: Store, lid: nat, n: Node) {
    && lid in s.lineages && LineageAt(s, lid).state.lifecycle != RetiredLineage
    && HoldsRecord(LineageAt(s, lid).graph, n) && n.currentness == FencedPublisher
  }

  /** Such a record is live, and would be CURRENT if its boot were. */
  lemma HeldFenced(s: Store, lid: nat, n: Node)
    requires CacheAgrees(s) && Held(s, lid, n)
    ensures IsLive(n.lifecycle) && Compute(LineageAt(s, lid).state, n, s.marks, Live) == IsCurrent
  {
    hide Compute, LivenessOf;
    assert Agrees(LineageAt(s, lid).state, n, s.marks, s.publishers);
    LivenessDecides(LineageAt(s, lid).state, n, s.marks);
  }

  lemma HeldIsNotCollected(env: Env, s: Store, lid: nat, n: Node, publisher: nat, boot: nat)
    requires env.CollisionFree() && Sound(env, s) && Originated(env, s.indexes) && LiveIn(s, lid, n)
    requires n.core.authority.boot == boot
    ensures n.id !in BootNodes(s.indexes, OtherLiveBoots(s.publishers, publisher, boot))
  {
    hide Sound, Originated, Env.CollisionFree, LiveIn;
    if n.id in BootNodes(s.indexes, OtherLiveBoots(s.publishers, publisher, boot)) {
      var k :| k in OtherLiveBoots(s.publishers, publisher, boot) && n.id in IndexAt(s.indexes.boot, k.1);
      IndexedUnderOwnBoot(env, s, lid, n, k.1);
    }
  }

  lemma EpochKept(env: Env, s: Store, epoch: nat, lid: nat)
    requires Sound(env, s) && lid in s.lineages
    ensures RegisterEpoch(s, epoch) in {None, Some(s)}
  {
    hide LineageSound, Owned;
  }

  /** The record is held FENCED_PUBLISHER where recomputation gives CURRENT. */
  ghost predicate StaleFenced(s: Store, lid: nat, n: Node) {
    Held(s, lid, n) && Recomputed(LineageAt(s, lid).state, n, s.marks, s.publishers) == IsCurrent
  }

  /** A record that the registration leaves stale. */
  lemma HeldTurnsStale(env: Env, s: Store, publisher: nat, boot: nat, epoch: nat, scope: Scope, lid: nat, n: Node)
    requires env.CollisionFree() && Sound(env, s) && CacheAgrees(s) && Originated(env, s.indexes)
    requires Register(env, s, publisher, boot, epoch, scope).outcome == Ok
    requires Held(s, lid, n) && PublisherOf(n) == (publisher, boot)
    ensures StaleFenced(Register(env, s, publisher, boot, epoch, scope).store, lid, n)
  {
    hide Sound, CacheAgrees, Originated, RefreshOwned, BootNodes, OtherLiveBoots, FenceAll, Refreshed,
      Compute, Register, RegisterEpoch, Env.CollisionFree, IsLive, SameRecords;
    var s1 := RegisterAccepted(env, s, publisher, boot, epoch, scope);
    EpochKept(env, s, epoch, lid);
    HeldFenced(s, lid, n);
    HeldIsNotCollected(env, s, lid, n, publisher, boot);
    var others := OtherLiveBoots(s.publishers, publisher, boot);
    var s2 := s.(publishers :=
      FenceAll(s.publishers, others)[(publisher, boot) := PublisherRecord(epoch, scope, true, false)]);
    var ids := BootNodes(s2.indexes, others);
    RefreshOwnedAt(s2, ids);
    RefreshedRecord(s2, ids, lid, n);
    RefreshedFrame(s2, ids, lid);
  }

  /** Exactly when an accepted registration keeps stored currentness what recomputation gives: no
      record of the boot, in a lineage that is not retired, is held to be of a fenced publisher.
      (A boot taken down by a worker-fence notification is not fenced, so it may come back.) */
  lemma RegisterKeepsCacheExactly(env: Env, s: Store, publisher: nat, boot: nat, epoch: nat, scope: Scope)
    requires env.CollisionFree() && Invariant(env, s) && Originated(env, s.indexes)
    requires Register(env, s, publisher, boot, epoch, scope).outcome == Ok
    ensures CacheAgrees(Register(env, s, publisher, boot, epoch, scope).store) <==> NoneHeldFenced(s, (publisher, boot))
  {
    hide LineageSound, Owned, Placed, AllTracked, Originated, Register, Env.CollisionFree, Compute, LivenessOf;
    if NoneHeldFenced(s, (publisher, boot)) {
      RegisterKeepsInvariant(env, s, publisher, boot, epoch, scope);
    } else {
      var lid, id :| lid in s.lineages && s.lineages[lid].state.lifecycle != RetiredLineage &&
                     id in s.lineages[lid].graph.nodes &&
                     PublisherOf(s.lineages[lid].graph.nodes[id]) == (publisher, boot) &&
                     s.lineages[lid].graph.nodes[id].currentness == FencedPublisher;
      NodeIsSound(env, lid, s.lineages[lid], id);
      HeldTurnsStale(env, s, publisher, boot, epoch, scope, lid, s.lineages[lid].graph.nodes[id]);
      StaleIsNoAgreement(Register(env, s, publisher, boot, epoch, scope).store, lid, s.lineages[lid].graph.nodes[id]);
    }
  }

  lemma StaleIsNoAgreement(s: Store, lid: nat, n: Node)
    requires StaleFenced(s, lid, n)
    ensures !CacheAgrees(s)
  {
    hide Compute, LivenessOf;
    assert !Agrees(LineageAt(s, lid).state, n, s.marks, s.publishers);
  }

  /** The same of every store that a run from the empty one reaches with its cache exact. */
  lemma RegistrationAfterRun(env: Env, ops: seq<Op>, publisher: nat, boot: nat, epoch: nat, scope: Scope)
    requires env.CollisionFree() && Obeys(env, EMPTY_STORE, ops, EVERY_RULE)
    requires Register(env, Run(env, EMPTY_STORE, ops), publisher, boot, epoch, scope).outcome == Ok
    ensures
      var s := Run(env, EMPTY_STORE, ops);
      CacheAgrees(Register(env, s, publisher, boot, epoch, scope).store) <==> NoneHeldFenced(s, (publisher, boot))
  {
    hide Run, Obeys, Register, Invariant, CacheAgrees, NoneHeldFenced, Originated, Env.CollisionFree;
    ReachedInvariant(env, ops);
    ReachedOriginated(env, ops);
    RegisterKeepsCacheExactly(env, Run(env, EMPTY_STORE, ops), publisher, boot, epoch, scope);
  }
}
