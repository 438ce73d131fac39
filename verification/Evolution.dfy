// How the records of a lineage may change: identity and core never do, lifecycles only rise,
// correction markers stay, and nothing is removed.
module Evolution {
  import opened Types
  import opened Ordering
  import opened Digraph
  import opened GraphModel
  import opened StoreTypes
  import opened CurrentnessModel
  import opened CommitPipeline
  import opened Soundness
  import opened Admission
  import opened Insertions

  /** Declared < Current = RevalidationRequired < Historical < Superseded < Revoked < Retired
      < Invalid. */
  function Rank(l: NodeLifecycle): nat {
    match l
    case Declared => 0
    case Current => 1
    case RevalidationRequired => 1
    case Historical => 2
    case Superseded => 3
    case Revoked => 4
    case Retired => 5
    case Invalid => 6
  }

  /** Every legal transition keeps or raises the rank, and every record may be invalidated. */
  lemma TransitionsRise(from: NodeLifecycle, to: NodeLifecycle)
    ensures ValidTransition(from, to) ==> Rank(from) <= Rank(to)
    ensures ValidTransition(from, Invalid)
  {
  }

  ghost predicate Succeeds(n: Node, n': Node) {
    && n'.id == n.id && n'.core == n.core
    && Rank(n.lifecycle) <= Rank(n'.lifecycle)
    && (n.correctedBy.Some? ==> n'.correctedBy.Some?)
  }

  ghost predicate Extends(g: Graph, h: Graph) {
    && (forall id :: id in g.nodes ==> id in h.nodes && Succeeds(g.nodes[id], h.nodes[id]))
    && (forall e :: e in g.edges ==> e in h.edges && h.edges[e] == g.edges[e])
  }

  lemma SucceedsSelf(n: Node)
    ensures Succeeds(n, n)
  {
  }

  lemma ExtendsTrans(f: Graph, g: Graph, h: Graph)
    requires Extends(f, g) && Extends(g, h)
    ensures Extends(f, h)
  {
  }

  lemma ExtendsSelf(g: Graph)
    ensures Extends(g, g)
  {
  }

  /** The same edges and the same record identities and cores. */
  ghost predicate SameRecords(g: Graph, h: Graph) {
    && h.edges == g.edges && h.nodes.Keys == g.nodes.Keys
    && forall id :: id in g.nodes ==> Succeeds(g.nodes[id], h.nodes[id])
  }

  lemma SameRecordsExtends(g: Graph, h: Graph)
    requires SameRecords(g, h)
    ensures Extends(g, h)
  {
  }

  lemma SameRecordsTrans(f: Graph, g: Graph, h: Graph)
    requires SameRecords(f, g) && SameRecords(g, h)
    ensures SameRecords(f, h)
  {
  }

  lemma SameRecordsKeepDag(g: Graph, h: Graph)
    requires SameRecords(g, h) && IsDag(g)
    ensures IsDag(h)
  {
    ArcsOfSameEdges(g, h);
  }

  // ---------------------------------------------------------------------------------------
  // Each record-state operation
  // ---------------------------------------------------------------------------------------

  /** A graph whose records stay sound while their state changes. */
  ghost predicate Steady(env: Env, lid: nat, attempts: set<AttemptKey>, g: Graph, h: Graph) {
    SameRecords(g, h) && (NodesSound(env, lid, attempts, g) ==> NodesSound(env, lid, attempts, h))
  }

  lemma SteadyTrans(env: Env, lid: nat, attempts: set<AttemptKey>, f: Graph, g: Graph, h: Graph)
    requires Steady(env, lid, attempts, f, g) && Steady(env, lid, attempts, g, h)
    ensures Steady(env, lid, attempts, f, h)
  {
    hide NodesSound, Succeeds;
    SameRecordsTrans(f, g, h);
  }

  lemma SteadySelf(env: Env, lid: nat, attempts: set<AttemptKey>, g: Graph)
    ensures Steady(env, lid, attempts, g, g)
  {
    hide NodesSound;
  }

  lemma UpdateStaysSound(env: Env, lid: nat, attempts: set<AttemptKey>, n: Node,
                         lifecycle: NodeLifecycle, currentness: Currentness)
    requires NodeSound(env, lid, attempts, n) && ValidTransition(n.lifecycle, lifecycle)
    requires lifecycle != RevalidationRequired && lifecycle != Declared
    ensures NodeSound(env, lid, attempts,
                      n.(lifecycle := lifecycle, currentness := currentness,
                         revalidationRequired := false))
  {
    hide HasOrigin;
  }

  lemma UpdateSteady(env: Env, lid: nat, attempts: set<AttemptKey>, g: Graph, id: nat,
                     lifecycle: NodeLifecycle, currentness: Currentness)
    requires lifecycle != RevalidationRequired && lifecycle != Declared
    ensures Steady(env, lid, attempts, g, UpdateNodeState(g, id, lifecycle, currentness, false))
  {
    hide NodeSound;
    if UpdateNodeStateOutcome(g, id, lifecycle) == Ok {
      TransitionsRise(g.nodes[id].lifecycle, lifecycle);
      if NodesSound(env, lid, attempts, g) {
        UpdateStaysSound(env, lid, attempts, g.nodes[id], lifecycle, currentness);
      }
    }
  }

  lemma CorrectedSteady(env: Env, lid: nat, attempts: set<AttemptKey>, g: Graph, id: nat, replacement: nat)
    ensures Steady(env, lid, attempts, g, SetCorrectedBy(g, id, replacement))
  {
    hide HasOrigin;
  }

  lemma RevalidateSteady(env: Env, lid: nat, attempts: set<AttemptKey>, g: Graph, id: nat)
    ensures
      Steady(env, lid, attempts, g,
             MarkRevalidated(UpdateNodeState(g, id, Current, NeedsRevalidation, false), id))
  {
    hide HasOrigin, NodesSound;
    var h := UpdateNodeState(g, id, Current, NeedsRevalidation, false);
    UpdateSteady(env, lid, attempts, g, id, Current, NeedsRevalidation);
    if id in h.nodes && NodesSound(env, lid, attempts, h) {
      MarkSound(env, lid, attempts, h, id);
    }
  }

  lemma MarkSound(env: Env, lid: nat, attempts: set<AttemptKey>, h: Graph, id: nat)
    requires NodesSound(env, lid, attempts, h) && id in h.nodes && h.nodes[id].lifecycle != Declared
    ensures NodesSound(env, lid, attempts, MarkRevalidated(h, id))
  {
    hide HasOrigin;
    forall k | k in h.nodes ensures NodeSound(env, lid, attempts, MarkRevalidated(h, id).nodes[k]) {
      assert NodeSound(env, lid, attempts, h.nodes[k]);
    }
  }

  lemma PromoteSteady(env: Env, lid: nat, attempts: set<AttemptKey>, g: Graph, id: nat)
    ensures Steady(env, lid, attempts, g, Promote(g, id))
  {
    hide NodesSound;
    if id in g.nodes && g.nodes[id].lifecycle == Declared {
      UpdateSteady(env, lid, attempts, g, id, Current, g.nodes[id].currentness);
    }
  }

  lemma {:induction false} PromoteAllSteady(env: Env, lid: nat, attempts: set<AttemptKey>, g: Graph,
                                            edges: seq<Edge>)
    ensures Steady(env, lid, attempts, g, PromoteAll(g, edges))
    decreases |edges|
  {
    hide Steady, Promote;
    if edges == [] {
      SteadySelf(env, lid, attempts, g);
    } else {
      var next := if IsEvidenceRelation(edges[0].etype) then Promote(g, edges[0].to) else g;
      SteadySelf(env, lid, attempts, g);
      PromoteSteady(env, lid, attempts, g, edges[0].to);
      PromoteAllSteady(env, lid, attempts, next, edges[1..]);
      SteadyTrans(env, lid, attempts, g, next, PromoteAll(g, edges));
    }
  }

  lemma RefreshSteady(env: Env, lid: nat, attempts: set<AttemptKey>, st: LineageState, g: Graph,
                      marks: Watermarks, publishers: Registry, ids: set<nat>)
    ensures Steady(env, lid, attempts, g, Refresh(st, g, marks, publishers, ids))
  {
    hide Recomputed, NodeSound;
    var h := Refresh(st, g, marks, publishers, ids);
    forall id | id in h.nodes
      ensures NodeSound(env, lid, attempts, g.nodes[id]) ==> NodeSound(env, lid, attempts, h.nodes[id])
    {
      CurrentnessKeepsSound(env, lid, attempts, g.nodes[id], h.nodes[id].currentness);
    }
  }

  lemma CurrentnessKeepsSound(env: Env, lid: nat, attempts: set<AttemptKey>, n: Node, c: Currentness)
    ensures NodeSound(env, lid, attempts, n) ==> NodeSound(env, lid, attempts, n.(currentness := c))
  {
    hide HasOrigin;
  }
}
