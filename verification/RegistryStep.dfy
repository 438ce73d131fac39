// Registration, fencing and dependency notifications re-evaluate only the records their reverse
// index names. Why that is enough.
module RegistrySteps {
  import opened Types
  import opened Ordering
  import opened Digraph
  import opened GraphModel
  import opened StoreTypes
  import opened CurrentnessModel
  import opened CommitPipeline
  import opened Operations
  import opened Soundness
  import opened Admission
  import opened Evolution
  import opened Transition
  import opened LineageSteps
  import opened CommitSteps
  import opened CommitCache
  import opened CommitInvariants

  // ---------------------------------------------------------------------------------------
  // Refreshing the collected records
  // ---------------------------------------------------------------------------------------

  /** Only the watermarks and the registry differ. */
  ghost predicate SameRecordsStore(s: Store, s': Store) {
    s'.lineages == s.lineages && s'.indexes == s.indexes && s'.recovered == s.recovered
  }

  /** A record is collected, or would compute to the same currentness as before. */
  ghost predicate Accounted(s: Store, s': Store, st: LineageState, n: Node, ids: set<nat>) {
    && Tracked(s', n)
    && (n.id in ids ||
        Recomputed(st, n, s'.marks, s'.publishers) == Recomputed(st, n, s.marks, s.publishers))
  }

  ghost predicate AccountedAt(s: Store, s': Store, ids: set<nat>, lid: nat, id: nat) {
    lid in s.lineages && id in s.lineages[lid].graph.nodes ==>
      Accounted(s, s', s.lineages[lid].state, s.lineages[lid].graph.nodes[id], ids)
  }

  ghost predicate AllAccounted(s: Store, s': Store, ids: set<nat>) {
    forall lid, id :: AccountedAt(s, s', ids, lid, id)
  }

  function OwnedIds(s: Store, ids: set<nat>, lid: nat): set<nat> {
    set id | id in ids && id in s.indexes.owner && s.indexes.owner[id] == lid
  }

  function Refreshed(s: Store, ids: set<nat>, lid: nat): Lineage {
    var lin := LineageAt(s, lid);
    lin.(graph := Refresh(lin.state, lin.graph, s.marks, s.publishers, OwnedIds(s, ids, lid)))
  }

  /** The same lineages, each with these records re-evaluated. */
  ghost predicate Refreshes(s: Store, s': Store, ids: set<nat>) {
    && s' == s.(lineages := s'.lineages) && s'.lineages.Keys == s.lineages.Keys
    && forall lid :: lid in s.lineages ==> LineageAt(s', lid) == Refreshed(s, ids, lid)
  }

  lemma RefreshOwnedAt(s: Store, ids: set<nat>)
    ensures Refreshes(s, RefreshOwned(s, ids), ids)
  {
    hide Refresh;
  }

  /** The same records but for their stored currentness. */
  lemma RefreshedFrame(s: Store, ids: set<nat>, lid: nat)
    ensures
      var lin, lin' := LineageAt(s, lid), Refreshed(s, ids, lid);
      && lin'.graph.nodes.Keys == lin.graph.nodes.Keys && lin'.graph.edges == lin.graph.edges
      && lin'.state == lin.state && lin'.attempts == lin.attempts && SameRecords(lin.graph, lin'.graph)
  {
    hide Recomputed, OwnedIds, LineageAt;
  }

  lemma RefreshedSound(env: Env, s: Store, ids: set<nat>, lid: nat)
    requires LineageSound(env, lid, LineageAt(s, lid))
    ensures LineageSound(env, lid, Refreshed(s, ids, lid))
  {
    hide NodesSound, Acyclic, CurrentPresent, Refresh, Succeeds, ValidateEdge, Env.FinalizeEdge, OwnedIds, LineageAt,
      HistoryRecords;
    var lin, lin' := LineageAt(s, lid), Refreshed(s, ids, lid);
    var owned := OwnedIds(s, ids, lid);
    RefreshSteady(env, lid, lin.attempts.Keys, lin.state, lin.graph, s.marks, s.publishers, owned);
    RefreshCounts(lin.state, lin.graph, s.marks, s.publishers, owned);
    SameRecordsKeepDag(lin.graph, lin'.graph);
    PresentSteady(lin.state, lin.state, lin.graph, lin'.graph);
    SameLedger(lin, lin');
  }

  lemma SameLedger(lin: Lineage, lin': Lineage)
    requires LedgerSound(lin) && lin'.attempts == lin.attempts && lin'.graph.nodes.Keys == lin.graph.nodes.Keys
    ensures LedgerSound(lin')
  {
    forall k | k in lin'.attempts ensures lin'.attempts[k].node in lin'.graph.nodes {
      assert lin.attempts[k].node in lin.graph.nodes.Keys;
    }
  }

  lemma RefreshKeepsSound(env: Env, s: Store, ids: set<nat>)
    requires Sound(env, s)
    ensures Sound(env, RefreshOwned(s, ids))
  {
    hide LineageSound, RefreshOwned, Refreshed, SameRecords;
    var s' := RefreshOwned(s, ids);
    RefreshOwnedAt(s, ids);
    forall lid | lid in s'.lineages
      ensures LineageSound(env, lid, s'.lineages[lid])
      ensures s'.lineages[lid].graph.nodes.Keys == s.lineages[lid].graph.nodes.Keys
    {
      RefreshedSound(env, s, ids, lid);
      RefreshedFrame(s, ids, lid);
    }
    forall lid, id | lid in s'.lineages && id in s'.lineages[lid].graph.nodes
      ensures id in s'.indexes.owner && s'.indexes.owner[id] == lid
    {
      assert id in s.lineages[lid].graph.nodes.Keys;
    }
  }

  lemma SameKeysPlaced(s: Store, s': Store, lin: Lineage, lin': Lineage)
    requires LineagePlaced(s, lin) && s'.indexes.generation == s.indexes.generation
    requires SamePosition(lin.state, lin'.state) && SameRecords(lin.graph, lin'.graph)
    ensures LineagePlaced(s', lin')
  {
    hide SingleLive;
    SingleLiveSteady(lin.state, lin'.state, lin.graph, lin'.graph);
    if lin.state.generation != 0 {
      assert s.indexes.generation[(lin.state.key.route, lin.state.generation)] in lin.graph.nodes.Keys;
    }
  }

  lemma RefreshKeepsPlaced(s: Store, ids: set<nat>)
    requires Placed(s)
    ensures Placed(RefreshOwned(s, ids))
  {
    hide LineagePlaced, RefreshOwned, Refreshed, SameRecords;
    var s' := RefreshOwned(s, ids);
    RefreshOwnedAt(s, ids);
    forall lid | lid in s'.lineages
      ensures LineagePlaced(s', s'.lineages[lid])
      ensures s'.lineages[lid].state == s.lineages[lid].state
    {
      RefreshedFrame(s, ids, lid);
      SameKeysPlaced(s, s', s.lineages[lid], s'.lineages[lid]);
    }
  }

  /** A record after its lineage was refreshed. */
  ghost predicate RefreshedAs(s: Store, ids: set<nat>, lid: nat, n: Node, h: Graph) {
    && n.id in h.nodes
    && h.nodes[n.id] == n.(currentness := if n.id in OwnedIds(s, ids, lid)
                                          then Recomputed(LineageAt(s, lid).state, n, s.marks, s.publishers)
                                          else n.currentness)
  }

  lemma RefreshedRecord(s: Store, ids: set<nat>, lid: nat, n: Node)
    requires HoldsRecord(LineageAt(s, lid).graph, n)
    ensures RefreshedAs(s, ids, lid, n, Refreshed(s, ids, lid).graph)
  {
    hide OwnedIds, Recomputed, LineageAt;
  }

  lemma CurrentnessIrrelevant(st: LineageState, n: Node, c: Currentness, m: Watermarks, p: Registry)
    ensures Recomputed(st, n.(currentness := c), m, p) == Recomputed(st, n, m, p)
  {
  }

  lemma SameContentTracked(s: Store, n: Node, c: Currentness)
    requires Tracked(s, n)
    ensures Tracked(s, n.(currentness := c))
  {
    hide IndexAt;
  }

  ghost predicate TrackedAndAgrees(s: Store, st: LineageState, n: Node) {
    Tracked(s, n) && (st.lifecycle != RetiredLineage ==> Agrees(st, n, s.marks, s.publishers))
  }

  lemma RefreshedAgreement(s: Store, s': Store, ids: set<nat>, lid: nat, n: Node, n': Node)
    requires SameRecordsStore(s, s') && AllAccounted(s, s', ids) && Owned(s) && CacheAgrees(s)
    requires lid in s.lineages && HoldsRecord(LineageAt(s, lid).graph, n)
    requires HoldsRecord(Refreshed(s', ids, lid).graph, n') && n'.id == n.id
    ensures TrackedAndAgrees(s', LineageAt(s, lid).state, n')
  {
    hide Tracked, Recomputed, Refreshed;
    var st := LineageAt(s, lid).state;
    RefreshedRecord(s', ids, lid, n);
    assert AccountedAt(s, s', ids, lid, n.id);
    SameContentTracked(s', n, n'.currentness);
    CurrentnessIrrelevant(st, n, n'.currentness, s'.marks, s'.publishers);
  }

  /** Re-evaluating the collected records restores the invariant after any change of watermarks
      and registry that leaves every other record's currentness as it was. */
  lemma RefreshKeepsInvariant(env: Env, s: Store, s': Store, ids: set<nat>)
    requires Invariant(env, s) && SameRecordsStore(s, s') && AllAccounted(s, s', ids)
    requires s'.marks.epoch != 0
    ensures Invariant(env, RefreshOwned(s', ids))
  {
    hide LineageSound, RefreshOwned, Refreshed, Placed, Tracked, Agrees, AllAccounted, SameRecords;
    var s2 := RefreshOwned(s', ids);
    RefreshOwnedAt(s', ids);
    WithOtherMarks(env, s, s');
    RefreshKeepsSound(env, s', ids);
    RefreshKeepsPlaced(s', ids);
    forall lid, id | lid in s2.lineages && id in s2.lineages[lid].graph.nodes
      ensures Tracked(s2, s2.lineages[lid].graph.nodes[id])
      ensures s2.lineages[lid].state.lifecycle != RetiredLineage ==>
                Agrees(s2.lineages[lid].state, s2.lineages[lid].graph.nodes[id], s2.marks, s2.publishers)
    {
      RefreshedFrame(s', ids, lid);
      assert id in s.lineages[lid].graph.nodes.Keys;
      NodeIsSound(env, lid, s.lineages[lid], id);
      NodeIsSound(env, lid, s2.lineages[lid], id);
      RefreshedAgreement(s, s', ids, lid, s.lineages[lid].graph.nodes[id], s2.lineages[lid].graph.nodes[id]);
      TrackedByParts(s', s2, s2.lineages[lid].graph.nodes[id]);
    }
  }

  lemma TrackedByParts(s: Store, s': Store, n: Node)
    requires Tracked(s, n) && s'.indexes == s.indexes && s'.marks == s.marks && s'.publishers == s.publishers
    ensures Tracked(s', n)
  {
    hide Reachable, NotAhead;
  }

  /** Structure and position do not read the registry or the watermarks. */
  lemma WithOtherMarks(env: Env, s: Store, s': Store)
    requires SameRecordsStore(s, s') && s'.marks.epoch != 0
    ensures Sound(env, s) ==> Sound(env, s')
    ensures Placed(s) ==> Placed(s')
  {
    hide LineageSound, Standing;
    if Placed(s) {
      forall lid | lid in s'.lineages ensures LineagePlaced(s', s'.lineages[lid]) {
        assert LineagePlaced(s, s.lineages[lid]);
      }
    }
  }

  // ---------------------------------------------------------------------------------------
  // The structure needs no assumption
  // ---------------------------------------------------------------------------------------

  /** What an operation on the registry or the watermarks keeps. */
  ghost predicate KeepsStructure(env: Env, s: Store, s': Store) {
    && (Sound(env, s) ==> Sound(env, s'))
    && (Placed(s) ==> Placed(s'))
    && (RoutesDistinct(s) ==> RoutesDistinct(s'))
  }

  lemma RefreshKeepsStructure(env: Env, s: Store, s': Store, ids: set<nat>)
    requires SameRecordsStore(s, s') && s'.marks.epoch != 0
    ensures KeepsStructure(env, s, s') && KeepsStructure(env, s, RefreshOwned(s', ids))
  {
    hide Sound, LineagePlaced, RefreshOwned, Refreshed, SameRecords;
    WithOtherMarks(env, s, s');
    if Sound(env, s) {
      RefreshKeepsSound(env, s', ids);
    }
    if Placed(s) {
      RefreshKeepsPlaced(s', ids);
    }
    RefreshOwnedAt(s', ids);
    forall lid | lid in s.lineages ensures LineageAt(RefreshOwned(s', ids), lid).state == LineageAt(s, lid).state {
      RefreshedFrame(s', ids, lid);
    }
  }

  lemma EmptyIsSound(env: Env, s: Store)
    requires !s.recovered && s.lineages == map[]
    ensures Sound(env, s) && Placed(s) && CacheAgrees(s) && AllTracked(s)
  {
  }

  /** A registration keeps the structure, whoever registers. */
  lemma RegisterKeepsStructure(env: Env, s: Store, publisher: nat, boot: nat, epoch: nat, scope: Scope)
    requires Sound(env, s)
    ensures KeepsStructure(env, s, Register(env, s, publisher, boot, epoch, scope).store)
  {
    hide LineageSound, Placed, RefreshOwned, BootNodes, FenceAll, OtherLiveBoots;
    var marked := RegisterEpoch(s, epoch);
    if publisher != 0 && boot != 0 && epoch != 0 && marked.Some? {
      var s1 := marked.value;
      var others := OtherLiveBoots(s1.publishers, publisher, boot);
      var s2 := s1.(publishers :=
          FenceAll(s1.publishers, others)[(publisher, boot) := PublisherRecord(epoch, scope, true, false)]);
      RefreshKeepsStructure(env, s, s1, {});
      RefreshKeepsStructure(env, s, s2, BootNodes(s2.indexes, others));
    }
  }

  lemma FenceKeepsStructure(env: Env, s: Store, publisher: nat, boot: nat, a: Authority)
    ensures KeepsStructure(env, s, Fence(s, publisher, boot, a).store)
  {
    hide Sound, Placed, RefreshOwned, BootNodes, FenceAll, RoutesDistinct;
    var s1 := s.(publishers := FenceAll(s.publishers, {(publisher, boot)}));
    if CheckAdministrator(s, a) == Ok {
      RefreshKeepsStructure(env, s, s1, BootNodes(s1.indexes, {(publisher, boot)}));
    }
  }

  lemma NotifyKeepsStructure(env: Env, s: Store, n: Notification, a: Authority)
    ensures KeepsStructure(env, s, Notify(s, n, a).store)
  {
    hide Sound, Placed, RefreshOwned, Collected, NotificationOutcome, AdvanceMarks, CheckAdministrator, RoutesDistinct;
    if CheckAdministrator(s, a) == Ok && NotificationOutcome(s, n) == Updated {
      EpochStays(s, n, a);
      RefreshKeepsStructure(env, s, s.(marks := AdvanceMarks(s.marks, n)), {});
      RefreshKeepsStructure(env, s, Announced(s, n), Collected(s.indexes, n));
    }
  }

  lemma EpochStays(s: Store, n: Notification, a: Authority)
    requires CheckAdministrator(s, a) == Ok && NotificationOutcome(s, n) == Updated
    ensures AdvanceMarks(s.marks, n).epoch != 0
  {
    hide LivenessOf;
  }

  // ---------------------------------------------------------------------------------------
  // Liveness changes
  // ---------------------------------------------------------------------------------------

  lemma SameLivenessSame(st: LineageState, n: Node, m: Watermarks, p: Registry, p': Registry)
    requires IsLive(n.lifecycle) ==> LivenessOf(p', PublisherOf(n)) == LivenessOf(p, PublisherOf(n))
    ensures Recomputed(st, n, m, p') == Recomputed(st, n, m, p)
  {
    hide LivenessOf, PublisherOf;
  }

  /** A record of a publisher whose liveness changes is collected through its boot. */
  lemma BootCollects(s: Store, n: Node, keys: set<PublisherKey>)
    requires Tracked(s, n) && IsLive(n.lifecycle)
    ensures PublisherOf(n) in keys ==> n.id in BootNodes(s.indexes, keys)
  {
  }

  /** The registry changed the liveness of these publishers at most, and of present ones. */
  ghost predicate LivenessChanges(p: Registry, p': Registry, keys: set<PublisherKey>) {
    && p.Keys <= p'.Keys
    && (forall k :: k in p && k !in keys ==> LivenessOf(p', k) == LivenessOf(p, k))
  }

  lemma LivenessAccounted(s: Store, s': Store, st: LineageState, n: Node, keys: set<PublisherKey>)
    requires Tracked(s, n) && s'.indexes == s.indexes && s'.marks == s.marks
    requires LivenessChanges(s.publishers, s'.publishers, keys)
    ensures Accounted(s, s', st, n, BootNodes(s.indexes, keys))
  {
    hide Recomputed, Reachable, LivenessOf, BootNodes;
    if IsLive(n.lifecycle) {
      BootCollects(s, n, keys);
      if PublisherOf(n) !in keys {
        SameLivenessSame(st, n, s.marks, s.publishers, s'.publishers);
      }
    } else {
      SameLivenessSame(st, n, s.marks, s.publishers, s'.publishers);
    }
  }

  lemma LivenessKeepsInvariant(env: Env, s: Store, s': Store, keys: set<PublisherKey>)
    requires Invariant(env, s) && SameRecordsStore(s, s') && s'.marks == s.marks && s.marks.epoch != 0
    requires LivenessChanges(s.publishers, s'.publishers, keys)
    ensures Invariant(env, RefreshOwned(s', BootNodes(s'.indexes, keys)))
  {
    hide Sound, CacheAgrees, Tracked, Accounted, RefreshOwned, BootNodes, LivenessChanges;
    forall lid, id ensures AccountedAt(s, s', BootNodes(s.indexes, keys), lid, id) {
      if lid in s.lineages && id in s.lineages[lid].graph.nodes {
        LivenessAccounted(s, s', s.lineages[lid].state, s.lineages[lid].graph.nodes[id], keys);
      }
    }
    RefreshKeepsInvariant(env, s, s', BootNodes(s'.indexes, keys));
  }

  /** No record of the boot, in a lineage that is not retired, is held to be of a fenced publisher.
      (Registering the boot makes such a record current without re-evaluating it.) */
  ghost predicate NoneHeldFenced(s: Store, k: PublisherKey) {
    forall lid, id ::
      (lid in s.lineages && s.lineages[lid].state.lifecycle != RetiredLineage &&
       id in s.lineages[lid].graph.nodes && PublisherOf(s.lineages[lid].graph.nodes[id]) == k) ==>
      s.lineages[lid].graph.nodes[id].currentness != FencedPublisher
  }

  /** Liveness decides a record's currentness only if nothing else does. */
  lemma LivenessDecides(st: LineageState, n: Node, m: Watermarks)
    ensures
      if Compute(st, n, m, Fenced) == FencedPublisher
      then IsLive(n.lifecycle) && Compute(st, n, m, Live) == IsCurrent
      else Compute(st, n, m, Live) == Compute(st, n, m, Fenced)
    ensures forall l :: l != Fenced ==> Compute(st, n, m, l) != FencedPublisher
  {
    hide EvidenceGet;
  }

  lemma RetiredIgnoresLiveness(st: LineageState, n: Node, m: Watermarks, l: Liveness)
    requires st.lifecycle == RetiredLineage
    ensures Compute(st, n, m, l) == HistoricalOnly
  {
  }

  /** The registry after a registration: the boot is live, the others of its publisher are not. */
  ghost predicate Registers(p: Registry, p': Registry, k: PublisherKey, others: set<PublisherKey>) {
    && p.Keys <= p'.Keys && LivenessOf(p', k) == Live
    && (forall j :: j in p && j != k && j !in others ==> LivenessOf(p', j) == LivenessOf(p, j))
  }

  lemma RegisteredAccounted(s: Store, s': Store, lid: nat, n: Node, k: PublisherKey, others: set<PublisherKey>)
    requires AllTracked(s) && CacheAgrees(s) && NoneHeldFenced(s, k) && SameRecordsStore(s, s') && s'.marks == s.marks
    requires Registers(s.publishers, s'.publishers, k, others)
    requires lid in s.lineages && HoldsRecord(LineageAt(s, lid).graph, n)
    ensures Accounted(s, s', LineageAt(s, lid).state, n, BootNodes(s.indexes, others))
  {
    hide Compute, Reachable, BootNodes, NotAhead;
    var st := LineageAt(s, lid).state;
    assert Tracked(s, n);
    if !IsLive(n.lifecycle) {
      SameLivenessSame(st, n, s.marks, s.publishers, s'.publishers);
    } else {
      BootCollects(s, n, others);
      if st.lifecycle == RetiredLineage {
        RetiredIgnoresLiveness(st, n, s.marks, LivenessOf(s.publishers, PublisherOf(n)));
        RetiredIgnoresLiveness(st, n, s.marks, LivenessOf(s'.publishers, PublisherOf(n)));
      } else if PublisherOf(n) == k {
        assert Agrees(st, n, s.marks, s.publishers);
        LivenessDecides(st, n, s.marks);
      }
    }
  }

  lemma RegisteredInvariant(env: Env, s: Store, s': Store, k: PublisherKey, others: set<PublisherKey>)
    requires Invariant(env, s) && NoneHeldFenced(s, k) && SameRecordsStore(s, s') && s'.marks == s.marks
    requires s.marks.epoch != 0 && Registers(s.publishers, s'.publishers, k, others)
    ensures Invariant(env, RefreshOwned(s', BootNodes(s'.indexes, others)))
  {
    hide LineageSound, Placed, AllTracked, CacheAgrees, NoneHeldFenced, Registers, Accounted, RefreshOwned, BootNodes;
    forall lid, id ensures AccountedAt(s, s', BootNodes(s.indexes, others), lid, id) {
      if lid in s.lineages && id in s.lineages[lid].graph.nodes {
        NodeIsSound(env, lid, s.lineages[lid], id);
        RegisteredAccounted(s, s', lid, s.lineages[lid].graph.nodes[id], k, others);
      }
    }
    RefreshKeepsInvariant(env, s, s', BootNodes(s'.indexes, others));
  }

  /** The registry and the boots that an accepted registration supersedes. */
  function WithBoot(s: Store, publisher: nat, boot: nat, record: PublisherRecord): Store {
    s.(publishers := FenceAll(s.publishers, OtherLiveBoots(s.publishers, publisher, boot))[(publisher, boot) := record])
  }

  /** What an accepted registration does to the store its epoch was established in. */
  lemma RegisterAccepted(env: Env, s: Store, publisher: nat, boot: nat, epoch: nat, scope: Scope) returns (s1: Store)
    requires Register(env, s, publisher, boot, epoch, scope).outcome == Ok
    ensures epoch != 0 && RegisterEpoch(s, epoch) == Some(s1)
    ensures
      var others := OtherLiveBoots(s1.publishers, publisher, boot);
      var s2 := WithBoot(s1, publisher, boot, PublisherRecord(epoch, scope, true, false));
      && Registers(s1.publishers, s2.publishers, (publisher, boot), others)
      && Register(env, s, publisher, boot, epoch, scope).store == RefreshOwned(s2, BootNodes(s2.indexes, others))
  {
    hide RefreshOwned, BootNodes;
    s1 := RegisterEpoch(s, epoch).value;
  }

  lemma RegisterRefused(env: Env, s: Store, publisher: nat, boot: nat, epoch: nat, scope: Scope)
    requires Register(env, s, publisher, boot, epoch, scope).outcome != Ok
    ensures
      var s' := Register(env, s, publisher, boot, epoch, scope).store;
      s' == s || (epoch != 0 && RegisterEpoch(s, epoch) == Some(s'))
  {
    hide RefreshOwned, BootNodes, FenceAll, OtherLiveBoots;
  }

  lemma RegisterKeepsInvariant(env: Env, s: Store, publisher: nat, boot: nat, epoch: nat, scope: Scope)
    requires Invariant(env, s)
    requires Register(env, s, publisher, boot, epoch, scope).outcome == Ok ==> NoneHeldFenced(s, (publisher, boot))
    ensures Invariant(env, Register(env, s, publisher, boot, epoch, scope).store)
  {
    hide Invariant, RefreshOwned, BootNodes, Registers, Register, OtherLiveBoots, FenceAll, NoneHeldFenced,
      RegisterEpoch;
    var k := (publisher, boot);
    if Register(env, s, publisher, boot, epoch, scope).outcome == Ok {
      var s1 := RegisterAccepted(env, s, publisher, boot, epoch, scope);
      MarkedInvariant(env, s, epoch, s1, k);
      var others := OtherLiveBoots(s1.publishers, publisher, boot);
      RegisteredInvariant(env, s1, WithBoot(s1, publisher, boot, PublisherRecord(epoch, scope, true, false)), k,
        others);
    } else {
      RegisterRefused(env, s, publisher, boot, epoch, scope);
      var s' := Register(env, s, publisher, boot, epoch, scope).store;
      if s' != s {
        MarkedInvariant(env, s, epoch, s', k);
      }
    }
  }

  lemma MarkedInvariant(env: Env, s: Store, epoch: nat, s1: Store, k: PublisherKey)
    requires Invariant(env, s) && epoch != 0 && RegisterEpoch(s, epoch) == Some(s1)
    ensures Invariant(env, s1) && s1.marks.epoch == epoch
    ensures NoneHeldFenced(s, k) <==> NoneHeldFenced(s1, k)
  {
    hide AllTracked, CacheAgrees, LineageSound, Placed;
    if s.marks.epoch == 0 {
      EmptyIsSound(env, s1);
    }
  }

  lemma FenceKeepsInvariant(env: Env, s: Store, publisher: nat, boot: nat, a: Authority)
    requires Invariant(env, s)
    ensures Invariant(env, Fence(s, publisher, boot, a).store)
  {
    hide Invariant, RefreshOwned, BootNodes;
    var key := (publisher, boot);
    if publisher != 0 && boot != 0 && CheckAdministrator(s, a) == Ok && key in s.publishers {
      LivenessKeepsInvariant(env, s, s.(publishers := FenceAll(s.publishers, {key})), {key});
    }
  }

  // ---------------------------------------------------------------------------------------
  // Watermark advances
  // ---------------------------------------------------------------------------------------

  /** The first announcement of a watermark covers what live records have bound so far. */
  ghost predicate FirstAnnouncementCovers(s: Store, n: Notification) {
    forall lid, id ::
      (lid in s.lineages && id in s.lineages[lid].graph.nodes &&
       IsLive(s.lineages[lid].graph.nodes[id].lifecycle)) ==>
      CoversBindings(s.marks, n, s.lineages[lid].graph.nodes[id].core.bindings)
  }

  ghost predicate CoversBindings(m: Watermarks, n: Notification, b: Bindings) {
    match n
    case PathAuthorityAdvance(v) => m.path == 0 && b.path.Some? ==> b.path.value.generation <= v
    case PolicyAdvance(v) =>
      && (m.policy == 0 && b.policy.Some? ==> b.policy.value <= v)
      && (m.policy == 0 && b.adaptation.Some? ==> b.adaptation.value.policy <= v)
    case EvidenceAdvance(v) => m.evidence == 0 && b.adaptation.Some? ==> b.adaptation.value.evidence <= v
    case _ => true
  }

  ghost predicate AllowedNotify(s: Store, n: Notification) {
    FirstAnnouncementCovers(s, n) && Next(s.marks.store).Some?
  }

  lemma BelowHas(index: ReverseIndex, k: nat, generation: nat, id: nat)
    requires id in IndexAt(index, k) && k < generation
    ensures id in Below(index, generation)
  {
  }

  /** A record that an advance can touch is bound below the new value and therefore collected;
      one bound exactly at a first announcement computes as before. */
  lemma AdvanceAccounted(s: Store, s': Store, st: LineageState, n: Node, note: Notification)
    requires Tracked(s, n) && NotificationOutcome(s, note) == Updated && !note.WorkerFence? && !note.EpochAdvance?
    requires IsLive(n.lifecycle) ==> CoversBindings(s.marks, note, n.core.bindings)
    requires s'.indexes == s.indexes && s'.publishers == s.publishers
    requires s'.marks == AdvanceMarks(s.marks, note).(store := s'.marks.store)
    ensures Accounted(s, s', st, n, Collected(s.indexes, note))
  {
    hide Reachable, Below, LivenessOf, EvidenceGet, PublisherOf;
    if IsLive(n.lifecycle) {
      BoundBelow(s, n, note);
    }
  }

  lemma BoundBelow(s: Store, n: Node, note: Notification)
    requires Tracked(s, n) && IsLive(n.lifecycle)
    ensures
      var b := n.core.bindings;
      match note
      case PathAuthorityAdvance(v) =>
        b.path.Some? && b.path.value.generation < v ==> n.id in Below(s.indexes.pathAuthority, v)
      case PolicyAdvance(v) =>
        && (b.policy.Some? && b.policy.value < v ==> n.id in Below(s.indexes.policy, v))
        && (b.adaptation.Some? && b.adaptation.value.policy < v ==> n.id in Below(s.indexes.policy, v))
      case EvidenceAdvance(v) =>
        b.adaptation.Some? && b.adaptation.value.evidence < v ==> n.id in Below(s.indexes.evidence, v)
      case _ => true
  {
    var b := n.core.bindings;
    match note {
      case PathAuthorityAdvance(v) =>
        if b.path.Some? && b.path.value.generation < v {
          BelowHas(s.indexes.pathAuthority, b.path.value.generation, v, n.id);
        }
      case PolicyAdvance(v) =>
        if b.policy.Some? && b.policy.value < v {
          BelowHas(s.indexes.policy, b.policy.value, v, n.id);
        }
        if b.adaptation.Some? && b.adaptation.value.policy < v {
          BelowHas(s.indexes.policy, b.adaptation.value.policy, v, n.id);
        }
      case EvidenceAdvance(v) =>
        if b.adaptation.Some? && b.adaptation.value.evidence < v {
          BelowHas(s.indexes.evidence, b.adaptation.value.evidence, v, n.id);
        }
      case _ =>
    }
  }

  /** An epoch advance collects every record. */
  lemma EpochAccounted(s: Store, s': Store, st: LineageState, n: Node, epoch: nat)
    requires Tracked(s, n) && n.id in s.indexes.owner
    requires s'.indexes == s.indexes && s'.publishers == s.publishers
    requires s'.marks == s.marks.(epoch := epoch, store := s'.marks.store)
    ensures Accounted(s, s', st, n, Collected(s.indexes, EpochAdvance(epoch)))
  {
    hide Reachable, Recomputed;
  }

  /** A worker fence collects every record of the boot. */
  lemma WorkerFenceAccounted(s: Store, s': Store, st: LineageState, n: Node, publisher: nat, boot: nat)
    requires Tracked(s, n) && (publisher, boot) in s.publishers
    requires s'.indexes == s.indexes && s'.publishers == Unlive(s.publishers, (publisher, boot))
    requires s'.marks == s.marks.(store := s'.marks.store)
    ensures Accounted(s, s', st, n, Collected(s.indexes, WorkerFence(publisher, boot)))
  {
    hide Compute;
    StoreMarkIrrelevant(st, n, s.marks, s'.marks, LivenessOf(s'.publishers, PublisherOf(n)));
    if !IsLive(n.lifecycle) {
      DeadIsHistorical(st, n, s'.marks, LivenessOf(s'.publishers, PublisherOf(n)));
      DeadIsHistorical(st, n, s.marks, LivenessOf(s.publishers, PublisherOf(n)));
    }
  }

  /** Announcing a missing boot changes the store generation only. */
  lemma GenerationAccounted(s: Store, s': Store, st: LineageState, n: Node)
    requires Tracked(s, n) && s'.indexes == s.indexes && s'.publishers == s.publishers
    requires s'.marks == s.marks.(store := s'.marks.store)
    ensures Accounted(s, s', st, n, {})
  {
    hide Compute, IndexAt;
    StoreMarkIrrelevant(st, n, s.marks, s'.marks, LivenessOf(s.publishers, PublisherOf(n)));
  }

  lemma GenerationKeepsInvariant(env: Env, s: Store, s': Store)
    requires Invariant(env, s) && s' == s.(marks := s.marks.(store := s'.marks.store)) && s.marks.epoch != 0
    ensures Invariant(env, s')
  {
    hide Sound, Placed, Accounted, LineageAgrees, Tracked, CacheAgrees;
    WithOtherMarks(env, s, s');
    forall lid, id | lid in s'.lineages && id in s'.lineages[lid].graph.nodes
      ensures Tracked(s', s'.lineages[lid].graph.nodes[id])
    {
      GenerationTracked(s, s', s.lineages[lid].state, s.lineages[lid].graph.nodes[id]);
    }
    forall lid | lid in s'.lineages ensures LineageAgrees(LineageAt(s', lid), s'.marks, s'.publishers) {
      CacheAgreesAt(s, lid);
      SameRegistryAgrees(s.lineages[lid], s.marks, s'.marks, s.publishers);
    }
    CacheAgreesFrom(s');
  }

  lemma GenerationTracked(s: Store, s': Store, st: LineageState, n: Node)
    requires Tracked(s, n) && s'.indexes == s.indexes && s'.publishers == s.publishers
    requires s'.marks == s.marks.(store := s'.marks.store)
    ensures Tracked(s', n)
  {
    GenerationAccounted(s, s', st, n);
  }

  lemma AnnouncedAccounted(s: Store, n: Notification, lid: nat, node: Node)
    requires AllTracked(s) && AllowedNotify(s, n) && NotificationOutcome(s, n) == Updated
    requires n.WorkerFence? ==> (n.publisher, n.boot) in s.publishers
    requires lid in s.lineages && HoldsRecord(LineageAt(s, lid).graph, node) && node.id in s.indexes.owner
    ensures Accounted(s, Announced(s, n), LineageAt(s, lid).state, node, Collected(s.indexes, n))
  {
    hide Tracked, Collected, CoversBindings, Accounted;
    var st, s' := LineageAt(s, lid).state, Announced(s, n);
    match n {
      case EpochAdvance(v) => EpochAccounted(s, s', st, node, v);
      case WorkerFence(p, b) => WorkerFenceAccounted(s, s', st, node, p, b);
      case _ => AdvanceAccounted(s, s', st, node, n);
    }
  }

  lemma NotifyKeepsInvariant(env: Env, s: Store, n: Notification, a: Authority)
    requires Invariant(env, s) && AllowedNotify(s, n)
    ensures Invariant(env, Notify(s, n, a).store)
  {
    hide LineageSound, Placed, CacheAgrees, AllTracked, RefreshOwned, Collected, AllowedNotify, Accounted, AdvanceMarks,
      NotificationOutcome, CheckAdministrator, Unlive;
    if CheckAdministrator(s, a) == Ok && NotificationOutcome(s, n) == Updated {
      EpochStays(s, n, a);
      NotExhausted(s, n);
      if n.WorkerFence? && (n.publisher, n.boot) !in s.publishers {
        FenceOfNobody(s, n);
        GenerationKeepsInvariant(env, s, Marked(s));
      } else {
        forall lid, id ensures AccountedAt(s, Announced(s, n), Collected(s.indexes, n), lid, id) {
          if lid in s.lineages && id in s.lineages[lid].graph.nodes {
            NodeIsSound(env, lid, s.lineages[lid], id);
            AnnouncedAccounted(s, n, lid, s.lineages[lid].graph.nodes[id]);
          }
        }
        RefreshKeepsInvariant(env, s, Announced(s, n), Collected(s.indexes, n));
      }
    }
  }

  lemma NotExhausted(s: Store, n: Notification)
    requires AllowedNotify(s, n)
    ensures Next(s.marks.store).Some?
  {
  }

  lemma FenceOfNobody(s: Store, n: Notification)
    requires n.WorkerFence? && (n.publisher, n.boot) !in s.publishers
    ensures Announced(s, n) == Marked(s)
  {
  }
}
