// The reverse indexes name a record only under what its own content is bound to, in every store
// that a run of any callers reaches.
module Origins {
  import opened Types
  import opened Ordering
  import opened GraphModel
  import opened StoreTypes
  import opened CurrentnessModel
  import opened Requests
  import opened CommitPipeline
  import opened Operations
  import opened Soundness
  import opened Admission

  predicate BindsPath(b: Bindings, generation: nat) {
    b.path.Some? && b.path.value.generation == generation
  }

  predicate BindsPolicy(b: Bindings, policy: nat) {
    b.policy == Some(policy) || (b.adaptation.Some? && b.adaptation.value.policy == policy)
  }

  predicate BindsEvidence(b: Bindings, evidence: nat) {
    b.adaptation.Some? && b.adaptation.value.evidence == evidence
  }

  ghost predicate SignedBy(env: Env, id: nat, boot: nat) {
    exists c :: env.NodeId(c) == id && c.authority.boot == boot
  }

  ghost predicate PathSigned(env: Env, id: nat, generation: nat) {
    exists c :: env.NodeId(c) == id && BindsPath(c.bindings, generation)
  }

  ghost predicate PolicySigned(env: Env, id: nat, policy: nat) {
    exists c :: env.NodeId(c) == id && BindsPolicy(c.bindings, policy)
  }

  ghost predicate EvidenceSigned(env: Env, id: nat, evidence: nat) {
    exists c :: env.NodeId(c) == id && BindsEvidence(c.bindings, evidence)
  }

  /** Whatever is indexed under a boot or a binding was derived from content with it. */
  ghost predicate Originated(env: Env, x: Indexes) {
    && (forall boot, id :: id in IndexAt(x.boot, boot) ==> SignedBy(env, id, boot))
    && (forall g, id :: id in IndexAt(x.pathAuthority, g) ==> PathSigned(env, id, g))
    && (forall g, id :: id in IndexAt(x.policy, g) ==> PolicySigned(env, id, g))
    && (forall g, id :: id in IndexAt(x.evidence, g) ==> EvidenceSigned(env, id, g))
  }

  lemma AddedAt(index: ReverseIndex, key: nat, id: nat, g: nat)
    ensures IndexAt(IndexAdd(index, key, id), g) == IndexAt(index, g) + if g == key then {id} else {}
  {
  }

  lemma IndexNodeOriginated(env: Env, x: Indexes, n: Node, lid: nat)
    requires Originated(env, x) && n.id == env.NodeId(n.core)
    ensures Originated(env, IndexNode(x, n, lid))
  {
    hide Env.NodeId, IndexAdd, IndexAt;
    var x', b := IndexNode(x, n, lid), n.core.bindings;
    forall index: ReverseIndex, key: nat, id: nat, g: nat
      ensures IndexAt(IndexAdd(index, key, id), g) == IndexAt(index, g) + if g == key then {id} else {}
    {
      AddedAt(index, key, id, g);
    }
    forall boot, id | id in IndexAt(x'.boot, boot) ensures SignedBy(env, id, boot) {
      assert id !in IndexAt(x.boot, boot) ==> id == n.id && boot == n.core.authority.boot;
    }
    forall g, id | id in IndexAt(x'.pathAuthority, g) ensures PathSigned(env, id, g) {
      assert id !in IndexAt(x.pathAuthority, g) ==> id == n.id && BindsPath(b, g);
    }
    forall g, id | id in IndexAt(x'.policy, g) ensures PolicySigned(env, id, g) {
      assert id !in IndexAt(x.policy, g) ==> id == n.id && BindsPolicy(b, g);
    }
    forall g, id | id in IndexAt(x'.evidence, g) ensures EvidenceSigned(env, id, g) {
      assert id !in IndexAt(x.evidence, g) ==> id == n.id && BindsEvidence(b, g);
    }
  }

  ghost predicate Identified(env: Env, v: Verdict) {
    match v
    case Proceed(node, _) => node.id == env.NodeId(node.core)
    case _ => true
  }

  lemma AdmittedIsIdentified(env: Env, s: Store, lin: Lineage, lid: nat, r: Request)
    ensures Identified(env, Admit(env, s, lin, lid, r))
  {
    hide BuildRouteState, BlankCore, MissingTarget, StageFreshness, StageExpected, StageEdges, StageLimits, Env.NodeId,
      Env.RequestDigest;
    BuiltRouteStateIsIdentified(env, s, lin, lid, r);
  }

  lemma BuiltRouteStateIsIdentified(env: Env, s: Store, lin: Lineage, lid: nat, r: Request)
    ensures Identified(env, BuildRouteState(env, s, lin, lid, r))
  {
    hide Env.NodeId, BlankCore, ExistingGeneration;
  }

  lemma ApplyOriginated(env: Env, s: Store, lid: nat, r: Request, node: Node, edges: seq<Edge>)
    requires Originated(env, s.indexes) && node.id == env.NodeId(node.core)
    ensures Originated(env, Apply(env, s, lid, r, node, edges).store.indexes)
  {
    hide InsertBatch, Settle, IndexNode, Originated, Env.NodeId, Next, PublicationOf, LineageAt, AttemptKeyOf;
    IndexNodeOriginated(env, s.indexes, node, lid);
  }

  lemma CommitOriginated(env: Env, s: Store, r: Request)
    requires Originated(env, s.indexes)
    ensures Originated(env, Commit(env, s, r).store.indexes)
  {
    hide Authorize, Admit, Apply, Originated, Env.NodeId, LineageAt;
    var lid := LineageIdOf(env, r);
    match Acquire(env, s, lid, r.key)
    case None =>
    case Some(s1) =>
      AdmittedIsIdentified(env, s1, LineageAt(s1, lid), lid, r);
      match Admit(env, s1, LineageAt(s1, lid), lid, r)
      case Proceed(node, edges) => ApplyOriginated(env, s1, lid, r, node, edges);
      case _ =>
  }

  lemma RefreshKeepsIndexes(s: Store, ids: set<nat>)
    ensures RefreshOwned(s, ids).indexes == s.indexes
  {
  }

  lemma RegistryKeepsIndexes(env: Env, s: Store, publisher: nat, boot: nat, epoch: nat, scope: Scope, a: Authority)
    ensures Register(env, s, publisher, boot, epoch, scope).store.indexes == s.indexes
    ensures Fence(s, publisher, boot, a).store.indexes == s.indexes
  {
    hide RefreshOwned, BootNodes, FenceAll, OtherLiveBoots, CheckAdministrator;
    forall t: Store, ids: set<nat> ensures RefreshOwned(t, ids).indexes == t.indexes {
      RefreshKeepsIndexes(t, ids);
    }
  }

  lemma NotifyKeepsIndexes(s: Store, n: Notification, a: Authority)
    ensures Notify(s, n, a).store.indexes == s.indexes
  {
    hide RefreshOwned, Collected, CheckAdministrator, NotificationOutcome, AdvanceMarks, Unlive;
    RefreshKeepsIndexes(Announced(s, n), Collected(s.indexes, n));
  }

  lemma CompactKeepsIndexes(env: Env, s: Store, lid: nat, a: Authority, options: CompactOptions)
    ensures Compact(env, s, lid, a, options).store.indexes == s.indexes
  {
    hide CompactLineage, LineageAfter, LivenessOf, LineageAt, Scope.Permits;
  }

  const ANYONE: Authority := Authority(0, 0, 0, 0, NoScope, None, None)

  /** No other operation writes an index. */
  lemma RestKeepsIndexes(env: Env, s: Store, op: Op)
    requires !op.PublishOp? && !op.SessionOp?
    ensures Step(env, s, op).indexes == s.indexes
  {
    hide Register, Fence, Notify, Compact, Publish, PublishSession;
    match op {
      case RegisterOp(p, b, e, scope) => RegistryKeepsIndexes(env, s, p, b, e, scope, ANYONE);
      case FenceOp(p, b, a) => RegistryKeepsIndexes(env, s, p, b, 0, NoScope, a);
      case NotifyOp(n, a) => NotifyKeepsIndexes(s, n, a);
      case CompactOp(lid, a, options) => CompactKeepsIndexes(env, s, lid, a, options);
      case _ =>
    }
  }

  lemma StepOriginated(env: Env, s: Store, op: Op)
    requires Originated(env, s.indexes)
    ensures Originated(env, Step(env, s, op).indexes)
  {
    hide Step, Commit, Originated, RequestOf;
    if op.PublishOp? || op.SessionOp? {
      PublicationCommits(env, s, op);
      if RequestOf(env, op).Some? {
        CommitOriginated(env, s, RequestOf(env, op).value);
      }
    } else {
      RestKeepsIndexes(env, s, op);
    }
  }

  /** In every store a run of any callers reaches, the reverse indexes are of the records' own boots
      and bindings. */
  lemma {:induction false} RunOriginated(env: Env, s: Store, ops: seq<Op>)
    requires Originated(env, s.indexes)
    ensures Originated(env, Run(env, s, ops).indexes)
    decreases |ops|
  {
    hide Step, Originated;
    if ops != [] {
      StepOriginated(env, s, ops[0]);
      RunOriginated(env, Step(env, s, ops[0]), ops[1..]);
    }
  }

  lemma ReachedOriginated(env: Env, ops: seq<Op>)
    ensures Originated(env, Run(env, EMPTY_STORE, ops).indexes)
  {
    hide Run;
    RunOriginated(env, EMPTY_STORE, ops);
  }

  lemma LiveIsNoTombstone(env: Env, lid: nat, attempts: set<AttemptKey>, n: Node)
    requires NodeSound(env, lid, attempts, n) && IsLive(n.lifecycle)
    ensures n.core.kind != CompactedSummary && n.id == env.NodeId(n.core)
  {
    hide HasOrigin, Env.NodeId;
  }

  /** Content with a live record's identity is the record's own, up to what its digest cannot see. */
  lemma SameOrigin(env: Env, lid: nat, lin: Lineage, n: Node, c: NodeCore)
    requires env.CollisionFree() && LineageSound(env, lid, lin) && HoldsRecord(lin.graph, n)
    requires IsLive(n.lifecycle) && env.NodeId(c) == n.id
    ensures c.bindings == n.core.bindings && c.authority.boot == n.core.authority.boot
  {
    hide LineageSound, NodeSound;
    NodeIsSound(env, lid, lin, n.id);
    LiveIsNoTombstone(env, lid, lin.attempts.Keys, n);
    assert CanonCore(c) == CanonCore(n.core);
    assert CanonCore(c).bindings == c.bindings && CanonCore(n.core).bindings == n.core.bindings;
    assert CanonCore(c).authority.boot == c.authority.boot;
    assert CanonCore(n.core).authority.boot == n.core.authority.boot;
  }
}
