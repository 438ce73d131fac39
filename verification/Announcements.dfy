// A notification re-evaluates only the records bound below what it announces. So it keeps stored
// currentness exact exactly when it strands no record: none is bound ahead of a first announcement
// that would make it stale.
module Announcements {
  import opened Types
  import opened Ordering
  import opened GraphModel
  import opened StoreTypes
  import opened CurrentnessModel
  import opened CommitPipeline
  import opened Operations
  import opened Soundness
  import opened Admission
  import opened Evolution
  import opened CommitSteps
  import opened CommitCache
  import opened CommitInvariants
  import opened RegistrySteps
  import opened Runs
  import opened Origins
  import opened BootIndexes

  // ---------------------------------------------------------------------------------------
  // Stranded records
  // ---------------------------------------------------------------------------------------

  /** A record bound ahead of what is announced for the first time, and not already stale for a
      reason that takes precedence. (Only records bound below the announced value are re-evaluated.) */
  predicate Stranded(m: Watermarks, n: Notification, x: Node) {
    var b := x.core.bindings;
    match n
    case PathAuthorityAdvance(v) =>
      m.path == 0 && b.path.Some? && b.path.value.generation > v && x.currentness != StaleRoute
    case PolicyAdvance(v) =>
      && m.policy == 0 && !BindsPolicyBelow(b, v)
      && ((b.policy.Some? && b.policy.value > v) || (b.adaptation.Some? && b.adaptation.value.policy > v))
      && x.currentness !in {StaleRoute, StalePathAuthority}
    case EvidenceAdvance(v) =>
      && m.evidence == 0 && b.adaptation.Some? && b.adaptation.value.evidence > v
      && x.currentness !in {StaleRoute, StalePathAuthority, StalePolicy}
    case _ => false
  }

  predicate BindsPolicyBelow(b: Bindings, v: nat) {
    (b.policy.Some? && b.policy.value < v) || (b.adaptation.Some? && b.adaptation.value.policy < v)
  }

  /** A live record, of a lineage that is not retired, that the notification strands. */
  ghost predicate Strands(s: Store, n: Notification, lid: nat, x: Node) {
    LiveIn(s, lid, x) && LineageAt(s, lid).state.lifecycle != RetiredLineage && Stranded(s.marks, n, x)
  }

  ghost predicate NoneStranded(s: Store, n: Notification) {
    forall lid, x :: !Strands(s, n, lid, x)
  }

  predicate IsAdvance(n: Notification) {
    n.PathAuthorityAdvance? || n.PolicyAdvance? || n.EvidenceAdvance?
  }

  /** The watermarks after the announcement. */
  predicate Advanced(m: Watermarks, m': Watermarks, n: Notification) {
    m' == AdvanceMarks(m, n).(store := m'.store)
  }

  /** What an announcement makes of a stranded record. */
  lemma StrandedTurns(s: Store, st: LineageState, x: Node, m': Watermarks, l: Liveness, n: Notification)
    requires IsLive(x.lifecycle) && !x.revalidationRequired && st.lifecycle != RetiredLineage
    requires Stranded(s.marks, n, x) && x.currentness == Compute(st, x, s.marks, l)
    requires Advanced(s.marks, m', n) && NotificationOutcome(s, n) == Updated
    ensures Compute(st, x, m', l) != x.currentness
  {
    hide EvidenceGet;
  }

  /** A record that is neither collected nor stranded computes as before. */
  lemma UnstrandedKeeps(s: Store, st: LineageState, x: Node, m': Watermarks, l: Liveness, n: Notification)
    requires Tracked(s, x) && IsLive(x.lifecycle) && st.lifecycle != RetiredLineage && IsAdvance(n)
    requires NotificationOutcome(s, n) == Updated && x.id !in Collected(s.indexes, n) && !Stranded(s.marks, n, x)
    requires x.currentness == Compute(st, x, s.marks, l) && Advanced(s.marks, m', n)
    ensures Compute(st, x, m', l) == x.currentness
  {
    hide Reachable, Below, EvidenceGet;
    BoundBelow(s, x, n);
  }

  lemma StrandedIsNotCollected(env: Env, s: Store, lid: nat, x: Node, n: Notification)
    requires env.CollisionFree() && Sound(env, s) && Originated(env, s.indexes)
    requires LiveIn(s, lid, x) && Stranded(s.marks, n, x)
    ensures x.id !in Collected(s.indexes, n)
  {
    hide Sound, LineageSound, Env.CollisionFree, Env.NodeId;
    SoundLineage(env, s, lid);
    var lin, id := LineageAt(s, lid), x.id;
    if id in Collected(s.indexes, n) {
      match n {
        case PathAuthorityAdvance(v) =>
          var k :| k in s.indexes.pathAuthority && k < v && id in s.indexes.pathAuthority[k];
          assert id in IndexAt(s.indexes.pathAuthority, k) && PathSigned(env, id, k);
          var c :| env.NodeId(c) == id && BindsPath(c.bindings, k);
          SameOrigin(env, lid, lin, x, c);
        case PolicyAdvance(v) =>
          var k :| k in s.indexes.policy && k < v && id in s.indexes.policy[k];
          assert id in IndexAt(s.indexes.policy, k) && PolicySigned(env, id, k);
          var c :| env.NodeId(c) == id && BindsPolicy(c.bindings, k);
          SameOrigin(env, lid, lin, x, c);
        case EvidenceAdvance(v) =>
          var k :| k in s.indexes.evidence && k < v && id in s.indexes.evidence[k];
          assert id in IndexAt(s.indexes.evidence, k) && EvidenceSigned(env, id, k);
          var c :| env.NodeId(c) == id && BindsEvidence(c.bindings, k);
          SameOrigin(env, lid, lin, x, c);
        case _ =>
      }
    }
  }

  // ---------------------------------------------------------------------------------------
  // Announcing
  // ---------------------------------------------------------------------------------------

  /** The record the refreshed store holds in the place of this one agrees exactly when this one was
      not stranded. */
  ghost predicate AgreesUnlessStranded(s: Store, n: Notification, t: Store, lid: nat, id: nat) {
    && id in LineageAt(s, lid).graph.nodes && id in LineageAt(t, lid).graph.nodes
    && LineageAt(t, lid).state == LineageAt(s, lid).state
    && (Agrees(LineageAt(t, lid).state, LineageAt(t, lid).graph.nodes[id], t.marks, t.publishers) <==>
        !Strands(s, n, lid, LineageAt(s, lid).graph.nodes[id]))
  }

  /** One record after an announcement. */
  lemma AnnouncedRecord(env: Env, s: Store, n: Notification, lid: nat, id: nat)
    requires env.CollisionFree() && Invariant(env, s) && Originated(env, s.indexes)
    requires IsAdvance(n) && NotificationOutcome(s, n) == Updated
    requires lid in s.lineages && LineageAt(s, lid).state.lifecycle != RetiredLineage
    requires id in LineageAt(s, lid).graph.nodes
    ensures AgreesUnlessStranded(s, n, RefreshOwned(Announced(s, n), Collected(s.indexes, n)), lid, id)
  {
    hide Sound, Placed, AllTracked, CacheAgrees, Originated, RefreshOwned, Refreshed, Collected, Compute, LivenessOf,
      Tracked, Env.CollisionFree, Stranded, NotificationOutcome, AdvanceMarks, SameRecords;
    var lin, x := LineageAt(s, lid), LineageAt(s, lid).graph.nodes[id];
    var st, l := lin.state, LivenessOf(s.publishers, PublisherOf(x));
    var s1, ids := Announced(s, n), Collected(s.indexes, n);
    RecordFacts(env, s, lid, id);
    RefreshOwnedAt(s1, ids);
    RefreshedRecord(s1, ids, lid, x);
    RefreshedFrame(s1, ids, lid);
    var x' := RefreshOwned(s1, ids).lineages[lid].graph.nodes[id];
    CurrentnessNotRead(st, x, x'.currentness, s1.marks, l);
    if !IsLive(x.lifecycle) {
      DeadIsHistorical(st, x, s.marks, l);
      DeadIsHistorical(st, x, s1.marks, l);
    } else if Stranded(s.marks, n, x) {
      StrandedIsNotCollected(env, s, lid, x, n);
      StrandedTurns(s, st, x, s1.marks, l, n);
    } else if id !in ids {
      UnstrandedKeeps(s, st, x, s1.marks, l, n);
    }
  }

  ghost predicate FactsAt(s: Store, lid: nat, id: nat) {
    id in LineageAt(s, lid).graph.nodes ==>
      var n := LineageAt(s, lid).graph.nodes[id];
      && n.id == id && !n.revalidationRequired && Tracked(s, n)
      && id in s.indexes.owner && s.indexes.owner[id] == lid
      && (LineageAt(s, lid).state.lifecycle != RetiredLineage ==>
            Agrees(LineageAt(s, lid).state, n, s.marks, s.publishers))
  }

  lemma RecordFacts(env: Env, s: Store, lid: nat, id: nat)
    requires Invariant(env, s) && lid in s.lineages
    ensures FactsAt(s, lid, id)
  {
    hide Placed, LineageSound, Tracked, Agrees, HasOrigin;
    if id in s.lineages[lid].graph.nodes {
      NodeIsSound(env, lid, s.lineages[lid], id);
    }
  }

  /** Exactly when an accepted announcement keeps stored currentness what recomputation gives: it
      strands no live record of a lineage that is not retired. */
  lemma NotifyKeepsCacheExactly(env: Env, s: Store, n: Notification, a: Authority)
    requires env.CollisionFree() && Invariant(env, s) && Originated(env, s.indexes)
    requires Notify(s, n, a).outcome == Updated
    ensures CacheAgrees(Notify(s, n, a).store) <==> NoneStranded(s, n)
  {
    hide Sound, Placed, AllTracked, CacheAgrees, Originated, RefreshOwned, Collected, Compute, LivenessOf,
      Env.CollisionFree, NotificationOutcome, Notify, Announced, Stranded;
    UpdatedIsAnnounced(s, n, a);
    if IsAdvance(n) {
      AdvanceKeepsCacheExactly(env, s, n);
    } else {
      OtherNotificationsCover(s, n);
      NotifyKeepsInvariant(env, s, n, a);
    }
  }

  lemma UpdatedIsAnnounced(s: Store, n: Notification, a: Authority)
    requires Notify(s, n, a).outcome == Updated
    ensures NotificationOutcome(s, n) == Updated && Next(s.marks.store).Some?
    ensures Notify(s, n, a).store == RefreshOwned(Announced(s, n), Collected(s.indexes, n))
  {
    hide RefreshOwned, Collected, AdvanceMarks;
  }

  lemma OtherNotificationsCover(s: Store, n: Notification)
    requires !IsAdvance(n)
    ensures FirstAnnouncementCovers(s, n) && NoneStranded(s, n)
  {
  }

  lemma AdvanceKeepsCacheExactly(env: Env, s: Store, n: Notification)
    requires env.CollisionFree() && Invariant(env, s) && Originated(env, s.indexes)
    requires IsAdvance(n) && NotificationOutcome(s, n) == Updated
    ensures CacheAgrees(RefreshOwned(Announced(s, n), Collected(s.indexes, n))) <==> NoneStranded(s, n)
  {
    hide Invariant, Originated, RefreshOwned, Refreshed, Collected, Agrees, Stranded, Env.CollisionFree,
      NotificationOutcome, AdvanceMarks, SameRecords;
    var s1, ids := Announced(s, n), Collected(s.indexes, n);
    var t := RefreshOwned(s1, ids);
    RefreshOwnedAt(s1, ids);
    forall lid, id | lid in s.lineages && LineageAt(s, lid).state.lifecycle != RetiredLineage &&
                     id in LineageAt(s, lid).graph.nodes
      ensures AgreesUnlessStranded(s, n, t, lid, id)
    {
      AnnouncedRecord(env, s, n, lid, id);
    }
    forall lid | lid in s.lineages ensures SameFrame(LineageAt(s, lid), LineageAt(t, lid)) {
      RefreshedFrame(s1, ids, lid);
    }
    AgreementDecided(s, t, n);
  }

  predicate SameFrame(lin: Lineage, lin': Lineage) {
    lin'.state == lin.state && lin'.graph.nodes.Keys == lin.graph.nodes.Keys
  }

  lemma AgreementDecided(s: Store, t: Store, n: Notification)
    requires t.lineages.Keys == s.lineages.Keys
    requires forall lid :: lid in s.lineages ==> SameFrame(LineageAt(s, lid), LineageAt(t, lid))
    requires forall lid, id ::
               (lid in s.lineages && LineageAt(s, lid).state.lifecycle != RetiredLineage &&
                id in LineageAt(s, lid).graph.nodes) ==>
               AgreesUnlessStranded(s, n, t, lid, id)
    ensures CacheAgrees(t) <==> NoneStranded(s, n)
  {
    hide Agrees, Stranded, IsLive;
    if NoneStranded(s, n) {
      forall lid, id | lid in t.lineages && t.lineages[lid].state.lifecycle != RetiredLineage &&
                       id in t.lineages[lid].graph.nodes
        ensures Agrees(t.lineages[lid].state, t.lineages[lid].graph.nodes[id], t.marks, t.publishers)
      {
        assert lid in s.lineages.Keys && SameFrame(LineageAt(s, lid), LineageAt(t, lid));
        assert id in LineageAt(s, lid).graph.nodes.Keys && AgreesUnlessStranded(s, n, t, lid, id);
      }
    } else {
      var lid, x :| Strands(s, n, lid, x);
      assert AgreesUnlessStranded(s, n, t, lid, x.id);
      assert !Agrees(t.lineages[lid].state, t.lineages[lid].graph.nodes[x.id], t.marks, t.publishers);
    }
  }

  /** The same of every store that a run from the empty one reaches with its cache exact. */
  lemma AnnouncementAfterRun(env: Env, ops: seq<Op>, n: Notification, a: Authority)
    requires env.CollisionFree() && Obeys(env, EMPTY_STORE, ops, EVERY_RULE)
    requires Notify(Run(env, EMPTY_STORE, ops), n, a).outcome == Updated
    ensures
      var s := Run(env, EMPTY_STORE, ops);
      CacheAgrees(Notify(s, n, a).store) <==> NoneStranded(s, n)
  {
    hide Run, Obeys, Notify, Invariant, CacheAgrees, NoneStranded, Originated, Env.CollisionFree;
    ReachedInvariant(env, ops);
    ReachedOriginated(env, ops);
    NotifyKeepsCacheExactly(env, Run(env, EMPTY_STORE, ops), n, a);
  }
}
