// The publisher registry over any run: one live boot per publisher, and fencing is for good.
module RegistryRuns {
  import opened Types
  import opened GraphModel
  import opened StoreTypes
  import opened CurrentnessModel
  import opened Requests
  import opened CommitPipeline
  import opened Operations
  import opened Soundness
  import opened RegistrySteps

  /** One live boot per publisher, and a fenced boot is not live. */
  ghost predicate RegistrySound(p: Registry) {
    && (forall j, k :: j in p && k in p && j.0 == k.0 && p[j].live && p[k].live ==> j == k)
    && (forall k :: k in p && p[k].fenced ==> !p[k].live)
  }

  /** Registered boots stay registered and fenced ones stay fenced. */
  ghost predicate FencesKept(p: Registry, p': Registry) {
    forall k :: k in p ==> k in p' && (p[k].fenced ==> p'[k].fenced)
  }

  lemma RefreshKeepsRegistry(s: Store, ids: set<nat>)
    ensures RefreshOwned(s, ids).publishers == s.publishers
  {
  }

  function Registered(p: Registry, publisher: nat, boot: nat, record: PublisherRecord): Registry {
    FenceAll(p, OtherLiveBoots(p, publisher, boot))[(publisher, boot) := record]
  }

  lemma RegisteredSound(p: Registry, publisher: nat, boot: nat, record: PublisherRecord)
    requires RegistrySound(p) && record.live && !record.fenced
    requires (publisher, boot) in p ==> !p[(publisher, boot)].fenced
    ensures RegistrySound(Registered(p, publisher, boot, record))
    ensures FencesKept(p, Registered(p, publisher, boot, record))
  {
    var p' := Registered(p, publisher, boot, record);
    forall j, k | j in p' && k in p' && j.0 == k.0 && p'[j].live && p'[k].live ensures j == k {
      assert j == (publisher, boot) || (j in p && p[j].live);
      assert k == (publisher, boot) || (k in p && p[k].live);
    }
  }

  lemma UnlivedSound(p: Registry, key: PublisherKey)
    requires RegistrySound(p)
    ensures RegistrySound(Unlive(p, key)) && FencesKept(p, Unlive(p, key))
  {
  }

  lemma RegisterRegistry(env: Env, s: Store, publisher: nat, boot: nat, epoch: nat, scope: Scope)
    requires RegistrySound(s.publishers)
    ensures
      var p' := Register(env, s, publisher, boot, epoch, scope).store.publishers;
      RegistrySound(p') && FencesKept(s.publishers, p')
  {
    hide RefreshOwned, BootNodes, FenceAll, OtherLiveBoots, RegistrySound, FencesKept;
    FencesSelf(s.publishers);
    var marked := RegisterEpoch(s, epoch);
    if marked.Some? {
      var s1 := marked.value;
      var others := OtherLiveBoots(s1.publishers, publisher, boot);
      var s2 := s1.(publishers :=
        FenceAll(s1.publishers, others)[(publisher, boot) := PublisherRecord(epoch, scope, true, false)]);
      RefreshKeepsRegistry(s2, BootNodes(s2.indexes, others));
      if (publisher, boot) !in s1.publishers || !s1.publishers[(publisher, boot)].fenced {
        RegisteredSound(s1.publishers, publisher, boot, PublisherRecord(epoch, scope, true, false));
      }
    }
  }

  lemma FenceRegistry(s: Store, publisher: nat, boot: nat, a: Authority)
    requires RegistrySound(s.publishers)
    ensures
      var p' := Fence(s, publisher, boot, a).store.publishers;
      RegistrySound(p') && FencesKept(s.publishers, p')
  {
    hide RefreshOwned, BootNodes, CheckAdministrator;
    var s1 := s.(publishers := FenceAll(s.publishers, {(publisher, boot)}));
    RefreshKeepsRegistry(s1, BootNodes(s1.indexes, {(publisher, boot)}));
  }

  lemma NotifyRegistry(s: Store, n: Notification, a: Authority)
    requires RegistrySound(s.publishers)
    ensures RegistrySound(Notify(s, n, a).store.publishers)
    ensures FencesKept(s.publishers, Notify(s, n, a).store.publishers)
  {
    hide RefreshOwned, Collected, CheckAdministrator, NotificationOutcome, AdvanceMarks, RegistrySound, FencesKept,
      Unlive;
    FencesSelf(s.publishers);
    if n.WorkerFence? {
      UnlivedSound(s.publishers, (n.publisher, n.boot));
    }
    RefreshKeepsRegistry(Announced(s, n), Collected(s.indexes, n));
  }

  lemma ApplyRegistry(env: Env, s: Store, lid: nat, r: Request, node: Node, edges: seq<Edge>)
    ensures Apply(env, s, lid, r, node, edges).store.publishers == s.publishers
  {
    hide InsertBatch, Settle, IndexNode, PublicationOf, LineageAt, Next, AttemptKeyOf;
  }

  lemma CommitRegistry(env: Env, s: Store, r: Request)
    ensures Commit(env, s, r).store.publishers == s.publishers
  {
    hide Admit, Authorize, Apply, LineageAt;
    var lid := LineageIdOf(env, r);
    match Acquire(env, s, lid, r.key)
    case None =>
    case Some(s1) =>
      match Admit(env, s1, LineageAt(s1, lid), lid, r)
      case Proceed(node, edges) => ApplyRegistry(env, s1, lid, r, node, edges);
      case _ =>
  }

  lemma CompactRegistry(env: Env, s: Store, lid: nat, a: Authority, options: CompactOptions)
    ensures Compact(env, s, lid, a, options).store.publishers == s.publishers
  {
    hide CompactLineage, LineageAfter, LivenessOf;
  }

  lemma StepRegistry(env: Env, s: Store, op: Op)
    requires RegistrySound(s.publishers)
    ensures RegistrySound(Step(env, s, op).publishers) && FencesKept(s.publishers, Step(env, s, op).publishers)
  {
    hide RegistrySound, FencesKept, Register, Fence, Notify, Publish, PublishSession, Commit, Compact, RequestOf;
    FencesSelf(s.publishers);
    match op {
      case RegisterOp(p, b, e, scope) => RegisterRegistry(env, s, p, b, e, scope);
      case FenceOp(p, b, a) => FenceRegistry(s, p, b, a);
      case NotifyOp(n, a) => NotifyRegistry(s, n, a);
      case CompactOp(lid, a, options) => CompactRegistry(env, s, lid, a, options);
      case _ =>
        PublicationCommits(env, s, op);
        if RequestOf(env, op).Some? {
          CommitRegistry(env, s, RequestOf(env, op).value);
        }
    }
  }

  lemma FencesSelf(p: Registry)
    ensures FencesKept(p, p)
  {
  }

  lemma {:induction false} RunRegistry(env: Env, s: Store, ops: seq<Op>)
    requires RegistrySound(s.publishers)
    ensures RegistrySound(Run(env, s, ops).publishers) && FencesKept(s.publishers, Run(env, s, ops).publishers)
    decreases |ops|
  {
    hide RegistrySound, Step;
    if ops != [] {
      StepRegistry(env, s, ops[0]);
      RunRegistry(env, Step(env, s, ops[0]), ops[1..]);
    }
  }

  /** Of one publisher at most one boot is live. */
  ghost predicate OneLiveBoot(p: Registry) {
    forall j: PublisherKey, k: PublisherKey :: j.0 == k.0 && LivenessOf(p, j) == Live && LivenessOf(p, k) == Live ==>
      j == k
  }

  predicate IsFenced(p: Registry, k: PublisherKey) {
    k in p && p[k].fenced
  }

  /** At every point of every run, without any assumption on the callers, a publisher has at most
      one live boot, and a boot that was once fenced never becomes live again. */
  lemma FencedForGood(env: Env, ops: seq<Op>, more: seq<Op>, k: PublisherKey)
    ensures
      var s := Run(env, EMPTY_STORE, ops);
      && OneLiveBoot(s.publishers)
      && (IsFenced(s.publishers, k) ==> LivenessOf(Run(env, s, more).publishers, k) == Fenced)
  {
    hide Run;
    RunRegistry(env, EMPTY_STORE, ops);
    RunRegistry(env, Run(env, EMPTY_STORE, ops), more);
  }

  /** A registration that is refused changes at most the epoch, and does so exactly when it passes
      the identity and epoch checks that come first: without a scope, with a fenced boot, or with a
      full registry it has already set the epoch. */
  lemma RefusedRegistrationSetsEpoch(env: Env, s: Store, publisher: nat, boot: nat, epoch: nat, scope: Scope)
    requires Register(env, s, publisher, boot, epoch, scope).outcome != Ok
    ensures
      var r := Register(env, s, publisher, boot, epoch, scope);
      && (r.store.marks.epoch == epoch != 0 <==>
            s.marks.epoch == epoch != 0 || (publisher != 0 && boot != 0 && epoch != 0 && RegisterEpoch(s, epoch).Some?))
      && r.store == s.(marks := s.marks.(epoch := r.store.marks.epoch), epochBootstrapped := r.store.epochBootstrapped)
  {
    hide RefreshOwned, BootNodes, FenceAll, OtherLiveBoots;
  }

  /** So a first registration that is refused for want of a scope fixes the epoch: the next one, at
      another epoch and with whatever scope, is refused as stale. */
  lemma RefusedRegistrationBars(env: Env, publisher: nat, boot: nat, epoch: nat, later: nat, scope: Scope)
    requires publisher != 0 && boot != 0 && epoch != 0 && later != 0 && later != epoch
    ensures
      var r := Register(env, EMPTY_STORE, publisher, boot, epoch, NoScope);
      && r.outcome == Unauthorized && r.store == EMPTY_STORE.(marks := EMPTY_STORE.marks.(epoch := epoch))
      && Register(env, r.store, publisher, boot, later, scope) == OpResult(r.store, StaleEpochOutcome)
  {
    hide RefreshOwned, BootNodes, FenceAll, OtherLiveBoots;
  }
}
