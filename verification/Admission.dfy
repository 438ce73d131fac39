// What stages 7 to 13 guarantee about the record and the edges they let through.
module Admission {
  import opened Types
  import opened Digraph
  import opened GraphModel
  import opened StoreTypes
  import opened Requests
  import opened CommitPipeline
  import opened Soundness

  /** The record the request kind calls for, consistent and identified by its content. */
  ghost predicate GoodRecord(env: Env, lin: Lineage, lid: nat, r: Request, n: Node) {
    && n == NewNode(env, n.core, n.lifecycle)
    && n.core.lineage == lid && n.core.authority == r.authority && n.core.bindings == r.bindings
    && n.core.evidence == r.evidence
    && n.core.compacted.None? && n.core.kind != CompactedSummary
    && ValidateNode(n) == Ok
    && n.lifecycle == (if r.kind == DeclarationKind then Declared else Current)
    && (r.kind == RouteStateKind ==>
          && n.IsRouteState() && n.core.route == r.key.route && n.core.generation == r.generation
          && n.core.rootReason == r.rootReason)
    && (r.kind == DeclarationKind ==> !n.IsRouteState())
    && (r.kind == CorrectionKind ==>
          && r.target in lin.graph.nodes
          && var t := lin.graph.nodes[r.target];
             n.core.kind == t.core.kind && n.core.route == t.core.route &&
             n.core.generation == t.core.generation && n.core.rootReason == t.core.rootReason)
    && (IsAdministrative(r.kind) ==>
          && n.core.kind == AdministrativeAction && r.target in lin.graph.nodes
          && lin.graph.nodes[r.target].lifecycle != Retired
          && lin.graph.nodes[r.target].lifecycle != Revoked)
  }

  lemma SameKey(env: Env, lid: nat, lin: Lineage, r: Request)
    requires env.CollisionFree() && LineageSound(env, lid, lin) && env.lineageIdOf(r.key) == lid
    ensures lin.state.key == r.key
  {
  }

  lemma BuildRouteStateGood(env: Env, s: Store, lin: Lineage, lid: nat, r: Request)
    requires NormalForm(r) && r.kind == RouteStateKind && r.authority.HasIdentity() && lid != 0
    ensures BuildRouteState(env, s, lin, lid, r).Proceed? ==>
              GoodRecord(env, lin, lid, r, BuildRouteState(env, s, lin, lid, r).node)
  {
    hide ExistingGeneration, CanonCore;
  }

  /** The generation index keeps a route state from repeating the current generation. */
  lemma RouteStateAdvances(env: Env, s: Store, lin: Lineage, lid: nat, r: Request)
    requires GenerationIndexed(s, lin) && lin.state.key == r.key && WellFormed(lin.graph) && r.generation != 0
    requires r.kind == RouteStateKind && Admit(env, s, lin, lid, r).Proceed?
    ensures lin.state.generation < r.generation
  {
    hide StageChecks, BlankCore, NewNode;
  }

  lemma TargetSound(env: Env, lid: nat, lin: Lineage, id: nat)
    requires LineageSound(env, lid, lin) && id in lin.graph.nodes
    ensures ValidateNode(lin.graph.nodes[id]) == Ok && lin.graph.nodes[id].id == id
    ensures lin.graph.nodes[id].core.lineage == lid
    ensures lin.graph.nodes[id].IsRouteState() ==> lin.graph.nodes[id].lifecycle != Declared
  {
    hide LineageSound, HasOrigin, CanonCore;
    NodeIsSound(env, lid, lin, id);
  }

  lemma BuildCorrectionGood(env: Env, lin: Lineage, lid: nat, r: Request)
    requires LineageSound(env, lid, lin) && r.target in lin.graph.nodes
    requires NormalForm(r) && r.kind == CorrectionKind && r.authority.HasIdentity()
    ensures
      var v := BuildCorrection(env, lid, r, lin.graph.nodes[r.target]);
      v.Proceed? ==> GoodRecord(env, lin, lid, r, v.node)
  {
    hide LineageSound, CanonCore;
    TargetSound(env, lid, lin, r.target);
  }

  lemma BuildActionGood(env: Env, lin: Lineage, lid: nat, r: Request)
    requires lid != 0 && r.target in lin.graph.nodes
    requires NormalForm(r) && IsAdministrative(r.kind) && r.authority.HasIdentity()
    ensures
      var v := BuildAction(env, lin, lid, r, lin.graph.nodes[r.target]);
      v.Proceed? ==> GoodRecord(env, lin, lid, r, v.node)
  {
  }

  lemma StageBuildGood(env: Env, s: Store, lin: Lineage, lid: nat, r: Request)
    requires env.CollisionFree() && LineageSound(env, lid, lin)
    requires NormalForm(r) && r.kind != LinkKind && r.authority.HasIdentity()
    ensures
      var v := StageBuild(env, s, lin, lid, r);
      v.Proceed? ==> GoodRecord(env, lin, lid, r, v.node)
  {
    hide LineageSound, GoodRecord, BuildRouteState, BuildCorrection, BuildAction;
    LineageIdNonZero(env, lid, lin);
    match r.kind {
      case RouteStateKind => BuildRouteStateGood(env, s, lin, lid, r);
      case DeclarationKind => DeclarationGood(env, lin, lid, r);
      case CorrectionKind =>
        if r.target in lin.graph.nodes {
          BuildCorrectionGood(env, lin, lid, r);
        }
      case _ =>
        if r.target in lin.graph.nodes {
          BuildActionGood(env, lin, lid, r);
        }
    }
  }

  lemma LineageIdNonZero(env: Env, lid: nat, lin: Lineage)
    requires env.CollisionFree() && LineageSound(env, lid, lin)
    ensures lid != 0
  {
  }

  lemma DeclarationGood(env: Env, lin: Lineage, lid: nat, r: Request)
    requires NormalForm(r) && r.kind == DeclarationKind && r.authority.HasIdentity() && lid != 0
    ensures GoodRecord(env, lin, lid, r, NewNode(env, BlankCore(lid, r).(stateDigest := 0), Declared))
  {
  }

  // ---------------------------------------------------------------------------------------
  // Identity: a record of a new attempt is new
  // ---------------------------------------------------------------------------------------

  lemma NodeIsSound(env: Env, lid: nat, lin: Lineage, id: nat)
    requires LineageSound(env, lid, lin) && id in lin.graph.nodes
    ensures NodeSound(env, lid, lin.attempts.Keys, lin.graph.nodes[id]) && lin.graph.nodes[id].id == id
  {
    hide NodeSound, EdgesSound, CurrentPresent, CountsExact, LedgerSound, Acyclic;
  }

  lemma EdgeIsSound(env: Env, lid: nat, lin: Lineage, e: nat)
    requires LineageSound(env, lid, lin) && e in lin.graph.edges
    ensures EdgeSound(env, lid, lin.attempts.Keys, lin.graph.edges[e]) && lin.graph.edges[e].id == e
  {
    hide EdgeSound, NodesSound, CurrentPresent, CountsExact, LedgerSound, Acyclic;
  }

  /** Content addressing and the attempt ledger: a present identity was derived by a recorded
      attempt, so the record of a new attempt is new. */
  lemma PresentIdWasAttempted(env: Env, lid: nat, lin: Lineage, core: NodeCore)
    requires env.CollisionFree() && LineageSound(env, lid, lin)
    ensures env.NodeId(core) in lin.graph.nodes ==> AttemptKeyOf(core.authority) in lin.attempts
  {
    hide LineageSound;
    var id := env.NodeId(core);
    if id in lin.graph.nodes {
      NodeIsSound(env, lid, lin, id);
      var c :| env.nodeIdOf(c) == id && c.lineage == lid && AttemptKeyOf(c.authority) in lin.attempts.Keys;
      assert c == CanonCore(core);
    }
  }

  lemma SameEdgeIdSameContent(env: Env, a: Edge, b: Edge)
    requires env.CollisionFree() && a == env.FinalizeEdge(a) && b == env.FinalizeEdge(b)
    requires a.id == b.id
    ensures CanonEdge(a) == CanonEdge(b)
  {
    assert env.edgeIdOf(EdgeIdentity(a.lineage, a.derivation, a.etype, a.from, a.to)) == a.id;
    assert env.edgeIdOf(EdgeIdentity(b.lineage, b.derivation, b.etype, b.from, b.to)) == b.id;
    assert env.derivationIdOf(CanonEdge(a)) == a.derivation;
    assert env.derivationIdOf(CanonEdge(b)) == b.derivation;
  }

  lemma PresentEdgeWasAttempted(env: Env, lid: nat, lin: Lineage, e: Edge)
    requires env.CollisionFree() && LineageSound(env, lid, lin) && e == env.FinalizeEdge(e)
    ensures e.id in lin.graph.edges ==> AttemptKeyOf(e.authority) in lin.attempts
  {
    hide LineageSound;
    if e.id in lin.graph.edges {
      var present := lin.graph.edges[e.id];
      EdgeIsSound(env, lid, lin, e.id);
      SameEdgeIdSameContent(env, present, e);
      assert CanonAuthority(present.authority) == CanonAuthority(e.authority);
    }
  }

  // ---------------------------------------------------------------------------------------
  // The batch of edges
  // ---------------------------------------------------------------------------------------

  /** An edge of the batch: finalized, consistent, between the new record and a present one. */
  ghost predicate BatchEdge(env: Env, lid: nat, g: Graph, r: Request, node: Node, e: Edge) {
    && e == env.FinalizeEdge(e) && e.lineage == lid && e.authority == r.authority
    && ValidateEdge(e) == Ok
    && (if FromNewNode(e.etype) then e.from == node.id && e.to in g.nodes
        else e.to == node.id && e.from in g.nodes)
    && (IsSuccessorRelation(e.etype) ==>
          && e.to in g.nodes && g.nodes[e.to].IsRouteState()
          && e.predecessor == g.nodes[e.to].core.generation
          && e.successor == node.core.generation)
  }

  ghost predicate BatchEdges(env: Env, lid: nat, g: Graph, r: Request, node: Node, edges: seq<Edge>) {
    forall i :: 0 <= i < |edges| ==> BatchEdge(env, lid, g, r, node, edges[i])
  }

  ghost predicate MatchesSpecs(edges: seq<Edge>, specs: seq<EdgeSpec>) {
    && |edges| == |specs|
    && forall i :: 0 <= i < |edges| ==>
         edges[i].etype == specs[i].etype &&
         (FromNewNode(specs[i].etype) ==> edges[i].to == specs[i].target) &&
         (!FromNewNode(specs[i].etype) ==> edges[i].from == specs[i].target)
  }

  lemma FinalizeIdempotent(env: Env, e: Edge)
    ensures env.FinalizeEdge(env.FinalizeEdge(e)) == env.FinalizeEdge(e)
  {
    assert CanonEdge(env.FinalizeEdge(e)) == CanonEdge(e);
  }

  lemma BuildEdgeGood(env: Env, s: Store, g: Graph, lid: nat, r: Request, node: Node, spec: EdgeSpec)
    requires WellFormed(g)
    ensures
      var e := BuildEdge(env, s, g, lid, r, node, spec);
      e.Success? ==> BatchEdge(env, lid, g, r, node, e.value) && MatchesSpecs([e.value], [spec])
  {
    if spec.target in g.nodes {
      FinalizeIdempotent(env, RawEdge(lid, r, node, g.nodes[spec.target], spec));
    }
  }

  lemma {:induction false} BuildEdgesGood(env: Env, s: Store, g: Graph, lid: nat, r: Request, node: Node,
                                          specs: seq<EdgeSpec>)
    requires WellFormed(g)
    ensures
      var es := BuildEdges(env, s, g, lid, r, node, specs);
      es.Success? ==> BatchEdges(env, lid, g, r, node, es.value) && MatchesSpecs(es.value, specs)
    decreases |specs|
  {
    hide BuildEdge, BatchEdge;
    if specs != [] {
      BuildEdgeGood(env, s, g, lid, r, node, specs[0]);
      BuildEdgesGood(env, s, g, lid, r, node, specs[1..]);
    }
  }

  /** A link edge joins two present records. */
  ghost predicate LinkEdge(env: Env, lid: nat, g: Graph, r: Request, e: Edge) {
    && e == env.FinalizeEdge(e) && e.lineage == lid && e.authority == r.authority
    && ValidateEdge(e) == Ok && e.from == r.linkFrom && e.to == r.target
    && e.from in g.nodes && e.to in g.nodes && e.etype == r.linkType
    && CheckAddEdge(g, e.from, e.to) == Ok
    && (IsSuccessorRelation(e.etype) ==>
          && g.nodes[e.to].IsRouteState() && g.nodes[e.from].IsRouteState()
          && e.predecessor == g.nodes[e.to].core.generation
          && e.successor == g.nodes[e.from].core.generation)
  }

  lemma BuildLinkGood(env: Env, g: Graph, lid: nat, r: Request)
    ensures
      var e := BuildLink(env, g, lid, r);
      e.Success? ==> LinkEdge(env, lid, g, r, e.value)
  {
    if r.linkFrom in g.nodes && r.target in g.nodes {
      FinalizeIdempotent(env, RawLink(lid, r, g.nodes[r.linkFrom], g.nodes[r.target]));
    }
  }

  // ---------------------------------------------------------------------------------------
  // Everything together
  // ---------------------------------------------------------------------------------------

  ghost predicate Admitted(env: Env, s: Store, lin: Lineage, lid: nat, r: Request, node: Node,
                           edges: seq<Edge>) {
    hide *;
    && lin.state.lifecycle in {Active, Withdrawn}
    && AttemptKeyOf(r.authority) !in lin.attempts
    && StageFreshness(s.marks, r.bindings) == Ok
    && StageLimits(env, lin, r, edges) == Ok
    && (r.kind != LinkKind ==>
          && GoodRecord(env, lin, lid, r, node)
          && node.id !in lin.graph.nodes
          && BatchEdges(env, lid, lin.graph, r, node, edges)
          && MatchesSpecs(edges, r.edges))
    && (r.kind == LinkKind ==> |edges| == 1 && LinkEdge(env, lid, lin.graph, r, edges[0]))
    && (forall i :: 0 <= i < |edges| ==> edges[i].id !in lin.graph.edges)
    && (r.kind == RouteStateKind ==> r.rootReason.Some? || r.edges != [])
  }

  lemma LinkBindings(env: Env, s: Store, lin: Lineage, lid: nat, r: Request)
    requires r.kind == LinkKind
    ensures StageBuild(env, s, lin, lid, r) == Proceed(NewNode(env, BlankCore(lid, r), Declared), [])
    ensures StageBuild(env, s, lin, lid, r).node.core.bindings == r.bindings
  {
  }

  lemma RouteStateHasCause(env: Env, s: Store, lin: Lineage, lid: nat, r: Request)
    requires r.kind == RouteStateKind && StageBuild(env, s, lin, lid, r).Proceed?
    ensures r.rootReason.Some? || r.edges != []
  {
  }

  lemma GoodRecordBindings(env: Env, lin: Lineage, lid: nat, r: Request, n: Node)
    requires GoodRecord(env, lin, lid, r, n)
    ensures n.core.bindings == r.bindings && n.core.authority == r.authority
    ensures n.id == env.NodeId(n.core)
  {
  }

  lemma BatchIsFresh(env: Env, lid: nat, lin: Lineage, r: Request, node: Node, edges: seq<Edge>)
    requires env.CollisionFree() && LineageSound(env, lid, lin)
    requires AttemptKeyOf(r.authority) !in lin.attempts
    requires BatchEdges(env, lid, lin.graph, r, node, edges)
    ensures forall i :: 0 <= i < |edges| ==> edges[i].id !in lin.graph.edges
  {
    hide LineageSound;
    forall i | 0 <= i < |edges| ensures edges[i].id !in lin.graph.edges {
      assert BatchEdge(env, lid, lin.graph, r, node, edges[i]);
      PresentEdgeWasAttempted(env, lid, lin, edges[i]);
    }
  }

  lemma SoundIsWellFormed(env: Env, lid: nat, lin: Lineage)
    requires LineageSound(env, lid, lin)
    ensures WellFormed(lin.graph) && IsDag(lin.graph)
  {
  }

  /** What passes stages 7 to 13 is admissible: the record and the edges are new, consistent,
      inside the lineage and within the limits checked there. */
  lemma AdmitGivesAdmitted(env: Env, s: Store, lin: Lineage, lid: nat, r: Request)
    requires env.CollisionFree() && LineageSound(env, lid, lin) && NormalForm(r) && r.authority.HasIdentity()
    requires Admit(env, s, lin, lid, r).Proceed?
    ensures
      var v := Admit(env, s, lin, lid, r);
      Admitted(env, s, lin, lid, r, v.node, v.edges)
  {
    hide LineageSound, GoodRecord, StageBuild, StageChecks, BatchEdges, MatchesSpecs, LinkEdge,
      NormalForm, Env.CollisionFree, StageFreshness, StageLimits;
    var node := StageBuild(env, s, lin, lid, r).node;
    SoundIsWellFormed(env, lid, lin);
    ChecksGive(env, s, lin, lid, r, node);
    if r.kind == LinkKind {
      LinkBindings(env, s, lin, lid, r);
      LinkIsFresh(env, lid, lin, r, Admit(env, s, lin, lid, r).edges[0]);
    } else {
      StageBuildGood(env, s, lin, lid, r);
      GoodRecordBindings(env, lin, lid, r, node);
      PresentIdWasAttempted(env, lid, lin, node.core);
      BatchIsFresh(env, lid, lin, r, node, Admit(env, s, lin, lid, r).edges);
      if r.kind == RouteStateKind {
        RouteStateHasCause(env, s, lin, lid, r);
      }
    }
  }

  /** What stages 11 to 13 let through. */
  lemma ChecksGive(env: Env, s: Store, lin: Lineage, lid: nat, r: Request, node: Node)
    requires WellFormed(lin.graph) && StageChecks(env, s, lin, lid, r, node).Proceed?
    ensures
      var v := StageChecks(env, s, lin, lid, r, node);
      && v.node == node && StageFreshness(s.marks, node.core.bindings) == Ok && StageLimits(env, lin, r, v.edges) == Ok
      && (r.kind != LinkKind ==> BatchEdges(env, lid, lin.graph, r, node, v.edges) && MatchesSpecs(v.edges, r.edges))
      && (r.kind == LinkKind ==> LinkEdge(env, lid, lin.graph, r, v.edges[0]))
  {
    hide StageFreshness, StageLimits, BuildEdges, BuildLink, BatchEdges, MatchesSpecs, LinkEdge, Env.FinalizeEdge,
      WellFormed;
    if r.kind == LinkKind {
      BuildLinkGood(env, lin.graph, lid, r);
    } else {
      BuildEdgesGood(env, s, lin.graph, lid, r, node, r.edges);
    }
  }

  lemma LinkIsFresh(env: Env, lid: nat, lin: Lineage, r: Request, e: Edge)
    requires env.CollisionFree() && LineageSound(env, lid, lin)
    requires AttemptKeyOf(r.authority) !in lin.attempts && LinkEdge(env, lid, lin.graph, r, e)
    ensures e.id !in lin.graph.edges
  {
    hide LineageSound;
    PresentEdgeWasAttempted(env, lid, lin, e);
  }
}
