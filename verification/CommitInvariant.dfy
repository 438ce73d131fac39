// A commit keeps the whole invariant: soundness, index completeness and cache agreement.
module CommitInvariants {
  import opened Types
  import opened Ordering
  import opened Digraph
  import opened GraphModel
  import opened StoreTypes
  import opened CurrentnessModel
  import opened Requests
  import opened CommitPipeline
  import opened Soundness
  import opened Admission
  import opened Insertions
  import opened Evolution
  import opened Rebinding
  import opened Settlement
  import opened Transition
  import opened LineageSteps
  import opened CommitSteps
  import opened CommitCache

  // ---------------------------------------------------------------------------------------
  // Index completeness
  // ---------------------------------------------------------------------------------------

  /** Every entry of one index is an entry of the other. */
  ghost predicate Covers(x: Indexes, x': Indexes) {
    && (forall k :: IndexAt(x.boot, k) <= IndexAt(x'.boot, k))
    && (forall k :: IndexAt(x.pathAuthority, k) <= IndexAt(x'.pathAuthority, k))
    && (forall k :: IndexAt(x.policy, k) <= IndexAt(x'.policy, k))
    && (forall k :: IndexAt(x.evidence, k) <= IndexAt(x'.evidence, k))
  }

  lemma IndexAddCovers(index: ReverseIndex, key: nat, id: nat, k: nat)
    ensures IndexAt(index, k) <= IndexAt(IndexAdd(index, key, id), k)
    ensures id in IndexAt(IndexAdd(index, key, id), key)
  {
  }

  lemma IndexNodeCovers(x: Indexes, n: Node, lid: nat)
    ensures Covers(x, IndexNode(x, n, lid))
  {
    hide IndexAdd, IndexAt;
    var b := n.core.bindings;
    forall index: ReverseIndex, key, k ensures IndexAt(index, k) <= IndexAt(IndexAdd(index, key, n.id), k) {
      IndexAddCovers(index, key, n.id, k);
    }
    var policy := if b.policy.Some? then IndexAdd(x.policy, b.policy.value, n.id) else x.policy;
    forall k ensures IndexAt(x.policy, k) <= IndexAt(IndexNode(x, n, lid).policy, k) {
      assert IndexAt(x.policy, k) <= IndexAt(policy, k);
    }
  }

  lemma IndexNodeReaches(x: Indexes, n: Node, lid: nat)
    ensures Reachable(IndexNode(x, n, lid), n)
  {
    var b := n.core.bindings;
    var policy := if b.policy.Some? then IndexAdd(x.policy, b.policy.value, n.id) else x.policy;
    if b.adaptation.Some? && b.policy.Some? {
      IndexAddCovers(policy, b.adaptation.value.policy, n.id, b.policy.value);
    }
  }

  lemma CoversReaches(x: Indexes, x': Indexes, n: Node, n': Node)
    requires Covers(x, x') && Reachable(x, n) && n'.id == n.id && n'.core == n.core
    ensures Reachable(x', n')
  {
    hide IndexAt;
  }

  /** What a record needs to stay tracked when the store changes around it. */
  ghost predicate TracksMore(s: Store, s': Store) {
    && Covers(s.indexes, s'.indexes)
    && s'.marks == s.marks.(store := s'.marks.store)
    && s'.publishers == s.publishers
  }

  lemma StaysTracked(s: Store, s': Store, n: Node, n': Node)
    requires TracksMore(s, s') && Tracked(s, n)
    requires n'.id == n.id && n'.core == n.core && (IsLive(n'.lifecycle) ==> IsLive(n.lifecycle))
    ensures Tracked(s', n')
  {
    hide Covers, Reachable;
    if IsLive(n'.lifecycle) {
      CoversReaches(s.indexes, s'.indexes, n, n');
    }
  }

  lemma SucceedsLive(n: Node, n': Node)
    requires Succeeds(n, n')
    ensures n'.id == n.id && n'.core == n.core && (IsLive(n'.lifecycle) ==> IsLive(n.lifecycle))
  {
  }

  // ---------------------------------------------------------------------------------------
  // The new record
  // ---------------------------------------------------------------------------------------

  /** Adaptation bindings are not ahead of the announced watermarks (path and policy bindings are
      checked by stage 11). */
  ghost predicate AdaptationAnnounced(m: Watermarks, b: Bindings) {
    b.adaptation.Some? ==>
      && (m.policy != 0 ==> b.adaptation.value.policy <= m.policy)
      && (m.evidence != 0 ==> b.adaptation.value.evidence <= m.evidence)
  }

  /** What keeps stored currentness exact, beside what keeps the structure. */
  ghost predicate AnnouncedCommit(env: Env, s: Store, r: Request) {
    Decision(env, s, r).Proceed? ==> AdaptationAnnounced(s.marks, r.bindings)
  }

  /** What stage 3 to 11 established about the request a commit proceeds with. */
  ghost predicate FreshlyAuthorised(s: Store, r: Request) {
    && StageFreshness(s.marks, r.bindings) == Ok && AdaptationAnnounced(s.marks, r.bindings)
    && (r.authority.publisher, r.authority.boot) in s.publishers
  }

  lemma FreshIsNotAhead(s: Store, r: Request)
    requires FreshlyAuthorised(s, r)
    ensures NotAhead(Marked(s).marks, r.bindings)
  {
  }

  lemma NewRecordTracked(env: Env, s: Store, lid: nat, r: Request, node: Node, edges: seq<Edge>, n': Node)
    requires Ready(env, s, LineageAt(s, lid), lid, r, node, edges) && r.kind != LinkKind
    requires FreshlyAuthorised(s, r) && n'.id == node.id && n'.core == node.core
    ensures Tracked(Applied(env, s, lid, r, node, edges), n')
  {
    hide Ready, Admitted, LineageSound, NormalForm, Settled, Reachable, IndexNode, NotAhead, Env.CollisionFree, Room,
      StageFreshness, AdaptationAnnounced, LineageAt;
    ReadyParts(env, s, LineageAt(s, lid), lid, r, node, edges);
    NewRecordKind(env, s, LineageAt(s, lid), lid, r, node, edges);
    FreshIsNotAhead(s, r);
    IndexNodeReaches(s.indexes, node, lid);
    SameContentReachable(IndexNode(s.indexes, node, lid), node, n');
  }

  lemma SameContentReachable(x: Indexes, n: Node, n': Node)
    requires Reachable(x, n) && n'.id == n.id && n'.core == n.core
    ensures Reachable(x, n')
  {
    hide IndexAt;
  }

  // ---------------------------------------------------------------------------------------
  // Every record
  // ---------------------------------------------------------------------------------------

  lemma AppliedTracksMore(env: Env, s: Store, lid: nat, r: Request, node: Node, edges: seq<Edge>)
    ensures TracksMore(s, Applied(env, s, lid, r, node, edges))
  {
    hide Settled, IndexNode;
    if r.kind != LinkKind {
      IndexNodeCovers(s.indexes, node, lid);
    }
  }

  /** A record of the later graph is the new one or succeeds one that was there. */
  ghost predicate NewOrSucceeds(g: Graph, h: Graph, r: Request, node: Node, id: nat) {
    id in h.nodes ==>
      if id in g.nodes then Succeeds(g.nodes[id], h.nodes[id])
      else r.kind != LinkKind && h.nodes[id].id == node.id && h.nodes[id].core == node.core
  }

  lemma SettledRecord(env: Env, s: Store, lin: Lineage, lid: nat, r: Request, node: Node, edges: seq<Edge>,
                      marked: Store, id: nat)
    requires Ready(env, s, lin, lid, r, node, edges)
    ensures NewOrSucceeds(lin.graph, Settled(env, marked, lin, r, node, edges).graph, r, node, id)
  {
    hide Ready, Settled, Grown, NewEdge, NodesSound, MovedOf, LineageSound, Admitted, Env.CollisionFree, NormalForm,
      Keys14, Room;
    ReadyParts(env, s, lin, lid, r, node, edges);
    SettledSteady(env, s, lin, lid, r, node, edges, marked);
    GrownContents(env, s, lin, lid, r, node, edges);
    if r.kind != LinkKind {
      RecordIdIsValid(env, s, lin, lid, r, node, edges);
    }
    var h, h' := Grown(env, lin, r, node, edges), Settled(env, marked, lin, r, node, edges).graph;
    if id in h'.nodes {
      assert id in h.nodes.Keys && Succeeds(h.nodes[id], h'.nodes[id]);
    }
  }

  ghost predicate TrackedAt(s: Store, lid: nat, id: nat) {
    lid in s.lineages && id in s.lineages[lid].graph.nodes ==> Tracked(s, s.lineages[lid].graph.nodes[id])
  }

  lemma AppliedTrackedAt(env: Env, s: Store, lid: nat, r: Request, node: Node, edges: seq<Edge>, l: nat, id: nat)
    requires lid in s.lineages && Ready(env, s, LineageAt(s, lid), lid, r, node, edges)
    requires AllTracked(s) && FreshlyAuthorised(s, r)
    ensures TrackedAt(Applied(env, s, lid, r, node, edges), l, id)
  {
    hide Ready, FreshlyAuthorised, Settled, Tracked, TracksMore, IndexNode, Succeeds;
    var s' := Applied(env, s, lid, r, node, edges);
    if l in s'.lineages && id in s'.lineages[l].graph.nodes {
      var n' := s'.lineages[l].graph.nodes[id];
      AppliedTracksMore(env, s, lid, r, node, edges);
      if l == lid {
        SettledRecord(env, s, s.lineages[lid], lid, r, node, edges, Marked(s), id);
        if id in s.lineages[lid].graph.nodes {
          SucceedsLive(s.lineages[lid].graph.nodes[id], n');
          StaysTracked(s, s', s.lineages[lid].graph.nodes[id], n');
        } else {
          NewRecordTracked(env, s, lid, r, node, edges, n');
        }
      } else {
        StaysTracked(s, s', s.lineages[l].graph.nodes[id], n');
      }
    }
  }

  lemma AppliedAllTracked(env: Env, s: Store, lid: nat, r: Request, node: Node, edges: seq<Edge>)
    requires lid in s.lineages && Ready(env, s, LineageAt(s, lid), lid, r, node, edges)
    requires AllTracked(s) && FreshlyAuthorised(s, r)
    ensures AllTracked(Applied(env, s, lid, r, node, edges))
  {
    hide Ready, FreshlyAuthorised, Applied, Tracked, LineageAt;
    var s' := Applied(env, s, lid, r, node, edges);
    forall l, id | l in s'.lineages && id in s'.lineages[l].graph.nodes
      ensures Tracked(s', s'.lineages[l].graph.nodes[id])
    {
      AppliedTrackedAt(env, s, lid, r, node, edges, l, id);
      assert TrackedAt(s', l, id);
    }
  }

  // ---------------------------------------------------------------------------------------
  // Cache agreement
  // ---------------------------------------------------------------------------------------

  lemma SameRegistryAgrees(lin: Lineage, m: Watermarks, m': Watermarks, publishers: Registry)
    requires LineageAgrees(lin, m, publishers) && m' == m.(store := m'.store)
    ensures LineageAgrees(lin, m', publishers)
  {
    hide Compute;
    forall id | id in lin.graph.nodes && lin.state.lifecycle != RetiredLineage
      ensures Agrees(lin.state, lin.graph.nodes[id], m', publishers)
    {
      var n := lin.graph.nodes[id];
      assert Agrees(lin.state, n, m, publishers);
      StoreMarkIrrelevant(lin.state, n, m, m', LivenessOf(publishers, PublisherOf(n)));
    }
  }

  lemma CacheAgreesAt(s: Store, lid: nat)
    requires CacheAgrees(s) && lid in s.lineages
    ensures LineageAgrees(LineageAt(s, lid), s.marks, s.publishers)
  {
    hide AgreesOutside;
  }

  lemma CacheAgreesFrom(s: Store)
    requires forall lid :: lid in s.lineages ==> LineageAgrees(LineageAt(s, lid), s.marks, s.publishers)
    ensures CacheAgrees(s)
  {
    hide AgreesOutside;
  }

  lemma AppliedCacheAgrees(env: Env, s: Store, lid: nat, r: Request, node: Node, edges: seq<Edge>)
    requires lid in s.lineages && Ready(env, s, LineageAt(s, lid), lid, r, node, edges)
    requires CacheAgrees(s) && Advances(LineageAt(s, lid), r)
    ensures CacheAgrees(Applied(env, s, lid, r, node, edges))
  {
    hide Ready, Settled, IndexNode, CacheAgrees, LineageAgrees, Advances;
    var s' := Applied(env, s, lid, r, node, edges);
    forall l | l in s'.lineages ensures LineageAgrees(LineageAt(s', l), s'.marks, s'.publishers) {
      CacheAgreesAt(s, l);
      if l == lid {
        SettledAgrees(env, s, LineageAt(s, lid), lid, r, node, edges);
      } else {
        SameRegistryAgrees(s.lineages[l], s.marks, s'.marks, s.publishers);
      }
    }
    CacheAgreesFrom(s');
  }

  // ---------------------------------------------------------------------------------------
  // The commit
  // ---------------------------------------------------------------------------------------

  lemma AcquiredKeepsCache(env: Env, s: Store, r: Request)
    requires AllTracked(s) && CacheAgrees(s)
    ensures AllTracked(Acquired(env, s, r)) && CacheAgrees(Acquired(env, s, r))
  {
    hide Agrees, Reachable, NotAhead;
    var s1 := Acquired(env, s, r);
    forall l, id | l in s1.lineages && id in s1.lineages[l].graph.nodes
      ensures Tracked(s1, s1.lineages[l].graph.nodes[id])
    {
      assert Tracked(s, s.lineages[l].graph.nodes[id]);
    }
  }

  lemma ProceedsIsFresh(env: Env, s: Store, r: Request, node: Node, edges: seq<Edge>)
    requires Proceeds(env, s, r) && Prepared(env, s, r, node, edges) && AnnouncedCommit(env, s, r)
    ensures FreshlyAuthorised(Acquired(env, s, r), r)
  {
    hide Sound, LineageSound, NormalForm, Decision, BatchFits, GoodRecord, BatchEdges, Env.CollisionFree,
      AdaptationAnnounced, StageFreshness, StageLimits, MatchesSpecs, LinkEdge, LineageFor;
  }

  /** A commit keeps the invariant, whether it is applied, answered or refused. */
  lemma CommitKeepsInvariant(env: Env, s: Store, r: Request)
    requires env.CollisionFree() && Invariant(env, s) && NormalForm(r) && AllowedCommit(env, s, r)
    requires RouteIsOwn(env, s, r) && CorrectsOnce(env, s, r) && AnnouncedCommit(env, s, r)
    ensures Invariant(env, Commit(env, s, r).store)
  {
    hide Sound, Placed, AllTracked, CacheAgrees, NormalForm, AllowedCommit, AnnouncedCommit, Commit, Acquired, Acquire,
      Authorize, Decision, Applied, Ready, Env.CollisionFree, FreshlyAuthorised, RouteIsOwn, CorrectsOnce, Advances;
    CommitCases(env, s, r);
    CommitKeepsSound(env, s, r);
    CommitKeepsPlaced(env, s, r);
    AcquiredKeepsCache(env, s, r);
    if Proceeds(env, s, r) {
      var s1, lid := Acquired(env, s, r), env.lineageIdOf(r.key);
      var node, edges := ProceedsIsPrepared(env, s, r);
      AcquiredPlaced(env, s, r);
      PreparedAdvances(env, s, r, node, edges);
      ProceedsIsFresh(env, s, r, node, edges);
      AppliedAllTracked(env, s1, lid, r, node, edges);
      AppliedCacheAgrees(env, s1, lid, r, node, edges);
    }
  }
}
