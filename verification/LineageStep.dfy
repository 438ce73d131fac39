// A ready commit leaves its lineage sound: one live route state, a ledger that names records,
// a consistent acyclic graph.
module LineageSteps {
  import opened Types
  import opened Ordering
  import opened Digraph
  import opened GraphModel
  import opened StoreTypes
  import opened CurrentnessModel
  import opened Requests
  import opened CommitPipeline
  import opened Soundness
  import opened Admission
  import opened Insertions
  import opened Evolution
  import opened Rebinding
  import opened Settlement
  import opened Transition

  // ---------------------------------------------------------------------------------------
  // Lineage state
  // ---------------------------------------------------------------------------------------

  /** Where the lineage stands after the commit. */
  ghost predicate Repositioned(st: LineageState, st': LineageState, r: Request, node: Node) {
    && st'.id == st.id && st'.key == st.key
    && st'.lineageGeneration == Saturating(st.lineageGeneration)
    && st'.generation == (if r.kind == RouteStateKind then r.generation else st.generation)
    && st'.currentNode == (if r.kind == RouteStateKind then node.id
                           else if r.kind == CorrectionKind && st.currentNode == r.target then node.id
                           else st.currentNode)
    && st'.lifecycle == (match r.kind
                         case RouteStateKind => if st.lifecycle == Withdrawn then Active else st.lifecycle
                         case WithdrawalKind => Withdrawn
                         case RevocationKind => RevokedLineage
                         case RetirementKind => RetiredLineage
                         case _ => st.lifecycle)
  }

  lemma MoveRepositions(env: Env, st: LineageState, g: Graph, edges: seq<Edge>, r: Request, node: Node)
    ensures
      var st' := Move(env, st, g, edges, r, node).state;
      && st'.id == st.id && st'.key == st.key && st'.lineageGeneration == st.lineageGeneration
      && Repositioned(st.(lineageGeneration := 0), st'.(lineageGeneration := 1), r, node)
  {
    hide RebindAll, UpdateNodeState, SetCorrectedBy, MarkRevalidated, DisplacedLifecycle, EdgesAt;
  }

  lemma SettledRepositions(env: Env, s: Store, lin: Lineage, r: Request, node: Node, edges: seq<Edge>)
    ensures Repositioned(lin.state, Settled(env, s, lin, r, node, edges).state, r, node)
    ensures Repositioned(lin.state, MovedOf(env, lin, r, node, edges).state, r, node)
    ensures SamePosition(MovedOf(env, lin, r, node, edges).state, Settled(env, s, lin, r, node, edges).state)
  {
    hide Move, Settled, Inserted, PromotedOf, Refresh, Affected;
    SettledShape(env, s, lin, r, node, edges);
    MoveRepositions(env, Bookkeep(lin.state, r), Inserted(lin, r, node, edges), ReportedEdges(r, edges), r, node);
  }

  // ---------------------------------------------------------------------------------------
  // Single live route state
  // ---------------------------------------------------------------------------------------

  lemma SingleLiveSameNodes(st: LineageState, g: Graph, h: Graph)
    requires SingleLive(st, g) && h.nodes == g.nodes
    ensures SingleLive(st, h)
  {
    forall id | id in h.nodes ensures RouteStateWithin(st, h.nodes[id]) && Displaced(st, h.nodes[id]) {
      assert RouteStateWithin(st, g.nodes[id]) && Displaced(st, g.nodes[id]);
    }
  }

  lemma SoundParts(env: Env, lid: nat, lin: Lineage)
    requires LineageSound(env, lid, lin)
    ensures CurrentPresent(lin.state, lin.graph) && LedgerSound(lin) && CountsExact(lin) && WellFormed(lin.graph)
    ensures lin.state.id == lid && lin.state.key.route != 0 && env.lineageIdOf(lin.state.key) == lid
    ensures GraphSound(env, lid, lin.attempts.Keys, lin.graph)
  {
    hide CurrentPresent, CountsExact, LedgerSound, NodesSound, EdgesSound, Acyclic;
  }

  lemma RouteStateSingleLive(env: Env, s: Store, lin: Lineage, lid: nat, r: Request, node: Node, edges: seq<Edge>,
                             h: Graph, st': LineageState)
    requires Ready(env, s, lin, lid, r, node, edges) && r.kind == RouteStateKind && Advances(lin, r)
    requires lin.state.key == r.key && Repositioned(lin.state, st', r, node)
    requires h.nodes == lin.graph.nodes[node.id := node]
    ensures SingleLive(st', h)
  {
    hide LineageSound, BatchEdges, MatchesSpecs, StageFreshness, StageLimits, BatchFits, SingleLive, NormalForm;
    SingleLiveAdvanced(lin.state, lin.graph, node, h, st');
  }

  lemma NewRecordKind(env: Env, s: Store, lin: Lineage, lid: nat, r: Request, node: Node, edges: seq<Edge>)
    requires Admitted(env, s, lin, lid, r, node, edges) && NormalForm(r)
    ensures r.kind != LinkKind && r.kind != RouteStateKind && r.kind != CorrectionKind ==> !node.IsRouteState()
    ensures r.kind != LinkKind ==> node.id !in lin.graph.nodes && node.core.authority == r.authority
    ensures r.kind != LinkKind ==> node.core.bindings == r.bindings
  {
    hide BatchEdges, MatchesSpecs, StageFreshness, StageLimits, LinkEdge, ValidateNode, NewNode;
  }

  lemma OtherSingleLive(env: Env, s: Store, lin: Lineage, lid: nat, r: Request, node: Node, edges: seq<Edge>,
                        h: Graph)
    requires Ready(env, s, lin, lid, r, node, edges) && r.kind != RouteStateKind && r.kind != CorrectionKind
    requires SingleLive(lin.state, lin.graph)
    requires h.nodes == if r.kind == LinkKind then lin.graph.nodes else lin.graph.nodes[node.id := node]
    ensures SingleLive(lin.state, h)
  {
    hide Ready, LineageSound, Admitted, NormalForm, SingleLive, Env.CollisionFree, Room;
    ReadyParts(env, s, lin, lid, r, node, edges);
    NewRecordKind(env, s, lin, lid, r, node, edges);
    if r.kind == LinkKind {
      SingleLiveSameNodes(lin.state, lin.graph, h);
    } else {
      SingleLiveWithOther(lin.state, lin.graph, node, h);
    }
  }

  lemma CorrectionMarks(env: Env, st: LineageState, h: Graph, r: Request, node: Node, grown: Graph)
    requires RebindsTo(env, h, r, node, grown) && r.target in grown.nodes && node.id != 0 && r.target != node.id
    requires r.kind == CorrectionKind
    ensures
      var moved := MoveCorrection(env, st, h, r, node).graph;
      && moved.nodes.Keys == grown.nodes.Keys
      && (forall id :: id in grown.nodes && id != r.target ==> moved.nodes[id] == grown.nodes[id])
      && moved.nodes[r.target].lifecycle == Invalid && moved.nodes[r.target].correctedBy == Some(node.id)
  {
    hide RebindAll, EdgesAt;
    TransitionsRise(grown.nodes[r.target].lifecycle, Invalid);
  }

  /** What a correction inserts before it marks its target. */
  lemma CorrectionGrown(env: Env, s: Store, lin: Lineage, lid: nat, r: Request, node: Node, edges: seq<Edge>)
    requires Ready(env, s, lin, lid, r, node, edges) && r.kind == CorrectionKind
    ensures node.id !in lin.graph.nodes && node.id != 0 && r.target in lin.graph.nodes && r.target != node.id
    ensures Grown(env, lin, r, node, edges).nodes == lin.graph.nodes[node.id := node]
    ensures RebindsTo(env, Inserted(lin, r, node, edges), r, node, Grown(env, lin, r, node, edges))
  {
    hide Ready, LineageSound, Admitted, Grown, Inserted, RebindsTo, NewEdge, KeepsEdges, IsDag, Env.CollisionFree;
    ReadyParts(env, s, lin, lid, r, node, edges);
    RecordIdIsValid(env, s, lin, lid, r, node, edges);
    TargetPresent(env, s, lin, lid, r, node, edges);
    GrownContents(env, s, lin, lid, r, node, edges);
    CorrectionRebinds(env, s, lin, lid, r, node, edges);
  }

  lemma CorrectionGraph(env: Env, s: Store, lin: Lineage, lid: nat, r: Request, node: Node, edges: seq<Edge>)
    requires Ready(env, s, lin, lid, r, node, edges) && r.kind == CorrectionKind
    ensures CorrectedGraph(lin.graph, MovedOf(env, lin, r, node, edges).graph, r.target, node)
    ensures node.id !in lin.graph.nodes && node.id != 0
  {
    hide Ready, Grown, Inserted, RebindsTo, Steady, MoveCorrection, Bookkeep, Succeeds;
    CorrectionGrown(env, s, lin, lid, r, node, edges);
    var st, grown := Bookkeep(lin.state, r), Grown(env, lin, r, node, edges);
    CorrectionMarks(env, st, Inserted(lin, r, node, edges), r, node, grown);
    MoveSteady(env, s, lin, lid, r, node, edges, {});
    SteadyIsSame(env, lid, {}, grown, MovedOf(env, lin, r, node, edges).graph);
  }

  lemma SteadyIsSame(env: Env, lid: nat, attempts: set<AttemptKey>, g: Graph, h: Graph)
    requires Steady(env, lid, attempts, g, h)
    ensures SameRecords(g, h)
  {
    hide NodesSound, SameRecords;
  }

  /** The replacement takes over what its target was about. */
  predicate TakesOver(g: Graph, target: nat, node: Node) {
    && target in g.nodes
    && var t := g.nodes[target];
       node.core.kind == t.core.kind && node.core.route == t.core.route &&
       node.core.generation == t.core.generation && node.core.rootReason == t.core.rootReason
  }

  lemma TargetPresent(env: Env, s: Store, lin: Lineage, lid: nat, r: Request, node: Node, edges: seq<Edge>)
    requires Admitted(env, s, lin, lid, r, node, edges) && r.kind == CorrectionKind
    ensures TakesOver(lin.graph, r.target, node)
  {
    hide BatchEdges, MatchesSpecs, StageFreshness, StageLimits;
  }

  lemma CorrectionSingleLive(env: Env, s: Store, lin: Lineage, lid: nat, r: Request, node: Node, edges: seq<Edge>,
                             st': LineageState)
    requires Ready(env, s, lin, lid, r, node, edges) && r.kind == CorrectionKind && Advances(lin, r)
    requires Repositioned(lin.state, st', r, node)
    ensures SingleLive(st', MovedOf(env, lin, r, node, edges).graph)
  {
    hide Ready, LineageSound, Admitted, SingleLive, MovedOf, CorrectedGraph, GraphSound, LedgerSound, NormalForm, Room,
      Env.CollisionFree;
    ReadyParts(env, s, lin, lid, r, node, edges);
    SoundParts(env, lid, lin);
    CorrectionGraph(env, s, lin, lid, r, node, edges);
    TargetPresent(env, s, lin, lid, r, node, edges);
    SingleLiveCorrected(lin.state, lin.graph, r.target, node, MovedOf(env, lin, r, node, edges).graph, st');
  }

  lemma {:induction false} PromoteAllKeeps(g: Graph, edges: seq<Edge>, id: nat)
    requires id in g.nodes && g.nodes[id].lifecycle != Declared
    ensures id in PromoteAll(g, edges).nodes && PromoteAll(g, edges).nodes[id] == g.nodes[id]
    decreases |edges|
  {
    if edges != [] {
      PromoteAllKeeps(if IsEvidenceRelation(edges[0].etype) then Promote(g, edges[0].to) else g, edges[1..], id);
    }
  }

  predicate HoldsCurrent(g: Graph, node: Node) {
    node.id in g.nodes && g.nodes[node.id].core == node.core && g.nodes[node.id].lifecycle == Current
  }

  lemma ReplacementSettled(env: Env, s: Store, lin: Lineage, lid: nat, r: Request, node: Node, edges: seq<Edge>,
                           marked: Store)
    requires Ready(env, s, lin, lid, r, node, edges) && r.kind == CorrectionKind
    ensures HoldsCurrent(Settled(env, marked, lin, r, node, edges).graph, node)
  {
    hide Ready, Admitted, LineageSound, MovedOf, PromoteAll, Counted, Affected, Recomputed, Env.CollisionFree, Room,
      NormalForm, Settled, Keys14;
    ReadyParts(env, s, lin, lid, r, node, edges);
    RecordLifecycle(env, s, lin, lid, r, node, edges);
    CorrectionGraph(env, s, lin, lid, r, node, edges);
    var moved := MovedOf(env, lin, r, node, edges);
    PromoteAllKeeps(moved.graph, ReportedEdges(r, edges) + moved.edges, node.id);
    SettledShape(env, marked, lin, r, node, edges);
  }

  lemma RecordLifecycle(env: Env, s: Store, lin: Lineage, lid: nat, r: Request, node: Node, edges: seq<Edge>)
    requires Admitted(env, s, lin, lid, r, node, edges) && r.kind == CorrectionKind
    ensures node.lifecycle == Current
  {
    hide BatchEdges, MatchesSpecs, StageFreshness, StageLimits, ValidateNode;
  }

  /** A route state that is live at the current generation and is not the current record. */
  predicate SecondLive(lin: Lineage, id: nat) {
    && id in lin.graph.nodes && id != lin.state.currentNode && lin.graph.nodes[id].IsRouteState()
    && lin.graph.nodes[id].core.generation == lin.state.generation && lin.graph.nodes[id].lifecycle == Current
  }

  /** A second correction of the same route state leaves two live ones at the current generation:
      the replacement it creates, which is not the current record, and the current record. */
  lemma SecondCorrectionBreaks(env: Env, s: Store, lin: Lineage, lid: nat, r: Request, node: Node, edges: seq<Edge>,
                               marked: Store)
    requires Ready(env, s, lin, lid, r, node, edges) && r.kind == CorrectionKind && !NotAlreadyReplaced(lin, r)
    ensures SecondLive(Settled(env, marked, lin, r, node, edges), node.id)
  {
    hide Ready, Admitted, LineageSound, Settled, Env.CollisionFree, Room, MovedOf, SingleLive, GraphSound, LedgerSound,
      NormalForm;
    ReadyParts(env, s, lin, lid, r, node, edges);
    SoundParts(env, lid, lin);
    RecordIdIsValid(env, s, lin, lid, r, node, edges);
    TargetPresent(env, s, lin, lid, r, node, edges);
    ReplacementSettled(env, s, lin, lid, r, node, edges, marked);
    SettledRepositions(env, marked, lin, r, node, edges);
  }

  /** A commit keeps one live route state at the lineage's current generation. */
  lemma SettledSingleLive(env: Env, s: Store, lin: Lineage, lid: nat, r: Request, node: Node, edges: seq<Edge>,
                          marked: Store)
    requires Ready(env, s, lin, lid, r, node, edges) && Advances(lin, r) && lin.state.key == r.key
    ensures Standing(Settled(env, marked, lin, r, node, edges))
  {
    hide Ready, NotAlreadyReplaced, SingleLive, MovedOf, Settled, Grown, NewEdge, NodesSound, Succeeds;
    var settled := Settled(env, marked, lin, r, node, edges);
    var grown, moved := Grown(env, lin, r, node, edges), MovedOf(env, lin, r, node, edges);
    SettledRepositions(env, marked, lin, r, node, edges);
    SettledSteady(env, s, lin, lid, r, node, edges, marked);
    GrownContents(env, s, lin, lid, r, node, edges);
    if r.kind == RouteStateKind {
      RouteStateSingleLive(env, s, lin, lid, r, node, edges, grown, settled.state);
      SingleLiveSteady(settled.state, settled.state, grown, settled.graph);
    } else if r.kind == CorrectionKind {
      CorrectionSingleLive(env, s, lin, lid, r, node, edges, moved.state);
      SingleLiveSteady(moved.state, settled.state, moved.graph, settled.graph);
    } else {
      OtherSingleLive(env, s, lin, lid, r, node, edges, grown);
      SingleLiveSteady(lin.state, settled.state, grown, settled.graph);
    }
  }

  /** Exactly when a correction keeps one live route state: its target is the current record or
      is not at the current generation. */
  lemma CorrectionKeepsSingleLiveExactly(env: Env, s: Store, lin: Lineage, lid: nat, r: Request, node: Node,
                                         edges: seq<Edge>, marked: Store)
    requires Ready(env, s, lin, lid, r, node, edges) && r.kind == CorrectionKind
    requires Standing(lin) && lin.state.key == r.key
    ensures Standing(Settled(env, marked, lin, r, node, edges)) <==> NotAlreadyReplaced(lin, r)
  {
    hide Ready, NotAlreadyReplaced, Settled, GraphSound, LedgerSound, HasOrigin;
    var settled := Settled(env, marked, lin, r, node, edges);
    if NotAlreadyReplaced(lin, r) {
      SettledSingleLive(env, s, lin, lid, r, node, edges, marked);
    } else {
      SecondCorrectionBreaks(env, s, lin, lid, r, node, edges, marked);
      SettledGraphSound(env, s, lin, lid, r, node, edges, marked);
      GraphKeys(env, lid, Keys14(lin, r), settled.graph, node.id);
      assert SingleLive(settled.state, settled.graph) ==> Displaced(settled.state, settled.graph.nodes[node.id]);
    }
  }

  lemma GraphKeys(env: Env, lid: nat, attempts: set<AttemptKey>, g: Graph, id: nat)
    requires GraphSound(env, lid, attempts, g) && id in g.nodes
    ensures g.nodes[id].id == id
  {
    hide NodesSound, EdgesSound, Acyclic;
  }

  // ---------------------------------------------------------------------------------------
  // Ledger
  // ---------------------------------------------------------------------------------------

  function NamedRecord(r: Request, node: Node): nat {
    if r.kind == LinkKind then r.linkFrom else node.id
  }

  /** The ledger with one new entry, named after the attempt. */
  predicate LedgerAdds(env: Env, before: map<AttemptKey, AttemptRecord>, after: map<AttemptKey, AttemptRecord>,
                       r: Request, node: Node) {
    var key := AttemptKeyOf(r.authority);
    && key in after && after == before[key := after[key]]
    && after[key].request == env.RequestDigest(r) && after[key].node == NamedRecord(r, node)
    && after[key].outcome == ReportedOutcome(r)
  }

  lemma SettledLedger(env: Env, s: Store, lin: Lineage, r: Request, node: Node, edges: seq<Edge>)
    ensures LedgerAdds(env, lin.attempts, Settled(env, s, lin, r, node, edges).attempts, r, node)
  {
    hide Move, Refresh, PromoteAll, Promote, Affected, EdgeIds, Inserted, Counted;
  }

  lemma NamedRecordPresent(env: Env, s: Store, lin: Lineage, lid: nat, r: Request, node: Node, edges: seq<Edge>)
    requires Admitted(env, s, lin, lid, r, node, edges)
    ensures r.kind == LinkKind ==> r.linkFrom in lin.graph.nodes
    ensures r.kind != LinkKind ==> node.id !in lin.graph.nodes
  {
    hide BatchEdges, MatchesSpecs, StageFreshness, StageLimits, GoodRecord;
  }

  lemma LedgerGrows(lin: Lineage, lin': Lineage, key: AttemptKey)
    requires LedgerSound(lin) && key.0 != 0 && key.1 != 0
    requires key in lin'.attempts && lin'.attempts == lin.attempts[key := lin'.attempts[key]]
    requires lin.graph.nodes.Keys <= lin'.graph.nodes.Keys
    requires lin'.attempts[key].node in lin'.graph.nodes
    requires lin'.attempts[key].outcome == Created ==> lin'.attempts[key].node !in lin.graph.nodes
    ensures LedgerSound(lin')
  {
    forall k | k in lin'.attempts
      ensures k.0 != 0 && k.1 != 0 && lin'.attempts[k].node in lin'.graph.nodes
    {
      if k != key {
        assert k in lin.attempts && lin.attempts[k] == lin'.attempts[k];
        assert lin.attempts[k].node in lin.graph.nodes.Keys;
      }
    }
    forall j, k | j in lin'.attempts && k in lin'.attempts && j != k &&
                  lin'.attempts[j].outcome == Created && lin'.attempts[k].outcome == Created
      ensures lin'.attempts[j].node != lin'.attempts[k].node
    {
      if j != key {
        assert j in lin.attempts && lin.attempts[j] == lin'.attempts[j];
      }
      if k != key {
        assert k in lin.attempts && lin.attempts[k] == lin'.attempts[k];
      }
    }
  }

  lemma SettledNodeKeys(env: Env, s: Store, lin: Lineage, lid: nat, r: Request, node: Node, edges: seq<Edge>,
                        marked: Store)
    requires Ready(env, s, lin, lid, r, node, edges)
    ensures Settled(env, marked, lin, r, node, edges).graph.nodes.Keys ==
            if r.kind == LinkKind then lin.graph.nodes.Keys else lin.graph.nodes.Keys + {node.id}
  {
    hide Ready, Settled, Grown, NewEdge, NodesSound, Succeeds, MovedOf;
    SettledSteady(env, s, lin, lid, r, node, edges, marked);
    GrownContents(env, s, lin, lid, r, node, edges);
  }

  lemma SettledLedgerSound(env: Env, s: Store, lin: Lineage, lid: nat, r: Request, node: Node, edges: seq<Edge>,
                           marked: Store)
    requires Ready(env, s, lin, lid, r, node, edges) && r.authority.HasIdentity()
    ensures LedgerSound(Settled(env, marked, lin, r, node, edges))
  {
    hide Ready, LineageSound, Admitted, Settled, LedgerSound, SingleLive, Env.RequestDigest;
    ReadyParts(env, s, lin, lid, r, node, edges);
    SoundParts(env, lid, lin);
    NamedRecordPresent(env, s, lin, lid, r, node, edges);
    SettledNodeKeys(env, s, lin, lid, r, node, edges, marked);
    SettledLedger(env, marked, lin, r, node, edges);
    LedgerGrows(lin, Settled(env, marked, lin, r, node, edges), AttemptKeyOf(r.authority));
  }

  // ---------------------------------------------------------------------------------------
  // The lineage
  // ---------------------------------------------------------------------------------------

  lemma RefreshCounts(st: LineageState, g: Graph, marks: Watermarks, publishers: Registry, ids: set<nat>)
    ensures
      var h := Refresh(st, g, marks, publishers, ids);
      |h.nodes| == |g.nodes| && h.edges == g.edges && HistoryRecords(h) == HistoryRecords(g)
  {
    hide Recomputed;
    var h := Refresh(st, g, marks, publishers, ids);
    assert h.nodes.Keys == g.nodes.Keys && |h.nodes.Keys| == |h.nodes| && |g.nodes.Keys| == |g.nodes|;
  }

  lemma SettledCounts(env: Env, s: Store, lin: Lineage, r: Request, node: Node, edges: seq<Edge>)
    ensures CountsExact(Settled(env, s, lin, r, node, edges))
  {
    hide MovedOf, PromotedOf, Settled, Refresh, HistoryRecords, Affected, Keys14;
    var promoted, settled := PromotedOf(env, lin, r, node, edges), Settled(env, s, lin, r, node, edges);
    SettledShape(env, s, lin, r, node, edges);
    RefreshCounts(settled.state, promoted, s.marks, s.publishers,
                  Affected(r, node, ReportedEdges(r, edges), MovedOf(env, lin, r, node, edges)));
  }

  lemma PresentSteady(st: LineageState, st': LineageState, g: Graph, h: Graph)
    requires CurrentPresent(st, g) && SameRecords(g, h) && SamePosition(st, st')
    ensures CurrentPresent(st', h)
  {
    assert st.generation != 0 ==> Succeeds(g.nodes[st.currentNode], h.nodes[st.currentNode]);
  }

  /** After the commit the current record is there, at the lineage's generation. */
  lemma SettledPresent(env: Env, s: Store, lin: Lineage, lid: nat, r: Request, node: Node, edges: seq<Edge>,
                       marked: Store)
    requires Ready(env, s, lin, lid, r, node, edges)
    ensures
      var settled := Settled(env, marked, lin, r, node, edges);
      CurrentPresent(settled.state, settled.graph)
  {
    hide Ready, Admitted, LineageSound, GraphSound, LedgerSound, CountsExact, Settled, Grown, NewEdge, NodesSound,
      Succeeds, MovedOf, Env.CollisionFree, Room, NormalForm;
    var settled, grown := Settled(env, marked, lin, r, node, edges), Grown(env, lin, r, node, edges);
    ReadyParts(env, s, lin, lid, r, node, edges);
    SoundParts(env, lid, lin);
    SettledRepositions(env, marked, lin, r, node, edges);
    SettledSteady(env, s, lin, lid, r, node, edges, marked);
    GrownContents(env, s, lin, lid, r, node, edges);
    if r.kind == RouteStateKind {
      PublishedAtGeneration(env, s, lin, lid, r, node, edges);
    } else if r.kind == CorrectionKind {
      TargetPresent(env, s, lin, lid, r, node, edges);
    }
    if r.kind != LinkKind {
      NewRecordKind(env, s, lin, lid, r, node, edges);
    }
    assert CurrentPresent(settled.state, grown);
    PresentSteady(settled.state, settled.state, grown, settled.graph);
  }

  lemma PublishedAtGeneration(env: Env, s: Store, lin: Lineage, lid: nat, r: Request, node: Node, edges: seq<Edge>)
    requires Admitted(env, s, lin, lid, r, node, edges) && r.kind == RouteStateKind && NormalForm(r)
    ensures node.IsRouteState() && node.core.generation == r.generation && r.generation != 0
  {
    hide BatchEdges, MatchesSpecs, StageFreshness, StageLimits;
  }

  /** A ready commit leaves its lineage sound. */
  lemma SettledSound(env: Env, s: Store, lin: Lineage, lid: nat, r: Request, node: Node, edges: seq<Edge>,
                     marked: Store)
    requires Ready(env, s, lin, lid, r, node, edges) && r.authority.HasIdentity()
    ensures LineageSound(env, lid, Settled(env, marked, lin, r, node, edges))
  {
    hide Ready, GraphSound, CurrentPresent, CountsExact, LedgerSound, Settled, Keys14, Admitted,
      NormalForm, Env.CollisionFree, Room, MovedOf, PromotedOf, Refresh, Counted, Affected;
    ReadyParts(env, s, lin, lid, r, node, edges);
    SoundParts(env, lid, lin);
    SettledGraphSound(env, s, lin, lid, r, node, edges, marked);
    SettledShape(env, marked, lin, r, node, edges);
    SettledPresent(env, s, lin, lid, r, node, edges, marked);
    SettledCounts(env, marked, lin, r, node, edges);
    SettledLedgerSound(env, s, lin, lid, r, node, edges, marked);
    SettledRepositions(env, marked, lin, r, node, edges);
  }
}
